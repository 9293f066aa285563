/**
 * The corporate-actions category: the API mapper of `_fetch_corporate_actions_api`, the
 * table extractor `_parse_corporate_actions_table` and the entry point
 * `get_corporate_actions_for_symbol`.
 */
module CorporateActionsScraper {
  import opened Wrappers
  import opened JsonValues
  import opened FieldPicker
  import opened HtmlModel
  import opened HtmlFetch
  import opened Tiers

  datatype ActionRecord = ActionRecord(
    symbol: string,
    company: string,
    series: string,
    purpose: string,
    faceValue: string,
    exDate: string,
    recordDate: string,
    bookClosureStart: string,
    bookClosureEnd: string)

  // ---------------------------------------------------------------------------
  // API tier
  // ---------------------------------------------------------------------------

  /** One API item as a record; `symbol` falls back to the queried symbol. */
  function ActionFromItem(item: seq<Member>, symbol: string): ActionRecord {
    ActionRecord(
      symbol := Pick(item, ["symbol", "SYMBOL"], symbol),
      company := Pick(item, ["company", "comp", "companyName"], ""),
      series := Pick(item, ["series"], ""),
      purpose := Pick(item, ["subject", "purpose"], ""),
      faceValue := Pick(item, ["faceVal", "face_value"], ""),
      exDate := Pick(item, ["exDate", "ex_date"], ""),
      recordDate := Pick(item, ["recDate", "recordDate", "rec_date"], ""),
      bookClosureStart := Pick(item, ["bcStartDate", "bc_start_date"], ""),
      bookClosureEnd := Pick(item, ["bcEndDate", "bc_end_date"], ""))
  }

  /** `ActionFromItem` for the queried symbol, as the mapping loop applies it. */
  function ActionMaker(symbol: string): seq<Member> -> ActionRecord {
    (item: seq<Member>) => ActionFromItem(item, symbol)
  }

  /** The record list for items that are all objects, one per item in item order. */
  function ActionsFromItems(items: seq<Json>, symbol: string): seq<ActionRecord>
    requires AllObjects(items)
  {
    MapObjects(items, ActionMaker(symbol))
  }

  /** `_fetch_corporate_actions_api` with the item list read out of the payload by `read`. */
  function CorporateActionsApiWith(reply: ApiReply, symbol: string, read: Json -> Result<seq<Json>, ApiError>)
    : Result<seq<ActionRecord>, ApiError>
  {
    match reply
    case RequestFailed => Failure(RequestError)
    case Delivered(payload) =>
      match read(payload)
      case Failure(e) => Failure(e)
      case Success(items) =>
        if AllObjects(items) then Success(ActionsFromItems(items, symbol))
        else Failure(ItemNotAnObject)
  }

  /** What `_fetch_corporate_actions_api` returns or raises, the item list read as written. */
  function CorporateActionsApi(reply: ApiReply, symbol: string): Result<seq<ActionRecord>, ApiError> {
    CorporateActionsApiWith(reply, symbol, PayloadItemsAsWritten)
  }

  /** The same with a top-level list read as the item list, as evidently intended. */
  function CorporateActionsApiIntended(reply: ApiReply, symbol: string): Result<seq<ActionRecord>, ApiError> {
    CorporateActionsApiWith(reply, symbol, PayloadItems)
  }

  method FetchCorporateActionsApi(reply: ApiReply, symbol: string) returns (r: Result<seq<ActionRecord>, ApiError>)
    ensures r == CorporateActionsApi(reply, symbol)
  {
    if reply.RequestFailed? {
      return Failure(RequestError);
    }
    var items := PayloadItemsAsWritten(reply.payload);
    if items.Failure? {
      return Failure(items.error);
    }
    var rows := MapItems(items.value, ActionMaker(symbol));
    r := if rows.Some? then Success(rows.value) else Failure(ItemNotAnObject);
  }

  /** One record per item, in item order; a failure when any item is not an object. */
  lemma CorporateActionsApiOnePerItem(payload: Json, symbol: string)
    requires PayloadItemsAsWritten(payload).Success?
    ensures var items := PayloadItemsAsWritten(payload).value;
            var r := CorporateActionsApi(Delivered(payload), symbol);
            (r.Success? <==> AllObjects(items))
            && (r.Success? ==>
                  |r.value| == |items|
                  && forall k :: 0 <= k < |items| ==> r.value[k] == ActionFromItem(items[k].members, symbol))
  {
  }

  /** A reply that is a top-level list fails as written, so the entry point falls back to the
      page; read as intended, every element that is an object becomes a record. */
  lemma CorporateActionsListPayload(elems: seq<Json>, symbol: string)
    requires AllObjects(elems)
    ensures CorporateActionsApi(Delivered(JArray(elems)), symbol) == Failure(PayloadNotAnObject)
    ensures CorporateActionsApiIntended(Delivered(JArray(elems)), symbol) == Success(ActionsFromItems(elems, symbol))
    ensures |ActionsFromItems(elems, symbol)| == |elems|
  {
    ArrayPayloadRejectedAsWritten(elems);
  }

  /** Away from a top-level list both readings agree. */
  lemma CorporateActionsApiAgreesOffLists(reply: ApiReply, symbol: string)
    requires reply.RequestFailed? || !reply.payload.JArray?
    ensures CorporateActionsApiIntended(reply, symbol) == CorporateActionsApi(reply, symbol)
  {
  }

  /** An item without any of the candidate keys gives the queried symbol and empty fields. */
  lemma ActionFromBareItem(item: seq<Member>, symbol: string)
    requires forall i :: 0 <= i < |item| ==>
               item[i].name !in ["symbol", "SYMBOL", "company", "comp", "companyName", "series", "subject",
                 "purpose", "faceVal", "face_value", "exDate", "ex_date", "recDate", "recordDate",
                 "rec_date", "bcStartDate", "bc_start_date", "bcEndDate", "bc_end_date"]
    ensures ActionFromItem(item, symbol) == ActionRecord(symbol, "", "", "", "", "", "", "", "")
  {
    PickMissingKeys(item, ["symbol", "SYMBOL"], symbol);
    PickMissingKeys(item, ["company", "comp", "companyName"], "");
    PickMissingKeys(item, ["series"], "");
    PickMissingKeys(item, ["subject", "purpose"], "");
    PickMissingKeys(item, ["faceVal", "face_value"], "");
    PickMissingKeys(item, ["exDate", "ex_date"], "");
    PickMissingKeys(item, ["recDate", "recordDate", "rec_date"], "");
    PickMissingKeys(item, ["bcStartDate", "bc_start_date"], "");
    PickMissingKeys(item, ["bcEndDate", "bc_end_date"], "");
  }

  /** A numeric face value is rendered as its decimal text, not dropped. */
  lemma ActionNumericFaceValue(item: seq<Member>, symbol: string, n: int)
    requires Get(item, "faceVal") == JInt(n)
    ensures ActionFromItem(item, symbol).faceValue == Str(JInt(n))
    ensures ActionFromItem(item, symbol).faceValue != ""
  {
    PickScalarWins(item, ["faceVal", "face_value"], "");
  }

  // ---------------------------------------------------------------------------
  // HTML tier
  // ---------------------------------------------------------------------------

  const CorporateActionsTableId := "CFcorpactionsEquityTable"
  const CorporateActionsMinCells: nat := 9

  /** The column rules for one row of at least nine cells: an anchored symbol, the rest text. */
  function ActionFromRow(tds: Row): ActionRecord
    requires |tds| >= CorporateActionsMinCells
  {
    ActionRecord(
      symbol := SymbolText(tds[0]),
      company := tds[1].text,
      series := tds[2].text,
      purpose := tds[3].text,
      faceValue := tds[4].text,
      exDate := tds[5].text,
      recordDate := tds[6].text,
      bookClosureStart := tds[7].text,
      bookClosureEnd := tds[8].text)
  }

  /** `ActionFromRow` as the row loop applies it, defined on rows of at least nine cells. */
  function ActionRowMaker(): Row --> ActionRecord {
    (tds: Row) requires |tds| >= CorporateActionsMinCells => ActionFromRow(tds)
  }

  /** Filter then map: one record per body row with at least nine cells, in body order. */
  function ActionRecords(rows: seq<Row>): seq<ActionRecord> {
    MapKept(rows, CorporateActionsMinCells, ActionRowMaker())
  }

  /** What `_parse_corporate_actions_table` returns for a document. */
  function CorporateActionsTable(doc: Document): seq<ActionRecord> {
    match BodyRows(FindTable(doc, HasId(CorporateActionsTableId)))
    case None => []
    case Some(rows) => ActionRecords(rows)
  }

  method ParseCorporateActionsTable(doc: Document) returns (rows: seq<ActionRecord>)
    ensures rows == CorporateActionsTable(doc)
  {
    var table := FindTable(doc, HasId(CorporateActionsTableId));
    if table.None? || table.value.tbody.None? {
      return [];
    }
    rows := MapRows(table.value.tbody.value, CorporateActionsMinCells, ActionRowMaker());
  }

  /** No table or no body gives `[]`; otherwise one record per row of at least nine cells,
      in body order, each column taken by position. */
  lemma CorporateActionsTableRows(doc: Document)
    ensures var body := BodyRows(FindTable(doc, HasId(CorporateActionsTableId)));
            var out := CorporateActionsTable(doc);
            (body.None? ==> out == [])
            && (body.Some? ==>
                  var kept := Kept(body.value, CorporateActionsMinCells);
                  |out| == |kept| <= |body.value|
                  && (out == [] <==> forall r :: r in body.value ==> |r| < CorporateActionsMinCells)
                  && forall i :: 0 <= i < |kept| ==>
                       out[i].symbol == SymbolText(kept[i][0])
                       && out[i].company == kept[i][1].text
                       && out[i].series == kept[i][2].text
                       && out[i].purpose == kept[i][3].text
                       && out[i].faceValue == kept[i][4].text
                       && out[i].exDate == kept[i][5].text
                       && out[i].recordDate == kept[i][6].text
                       && out[i].bookClosureStart == kept[i][7].text
                       && out[i].bookClosureEnd == kept[i][8].text)
  {
    var body := BodyRows(FindTable(doc, HasId(CorporateActionsTableId)));
    if body.Some? {
      KeptEmpty(body.value, CorporateActionsMinCells);
    }
  }

  /** A page whose table body holds a header row of eight cells and one data row of nine
      gives exactly the data row's record. */
  lemma CorporateActionsSkipsShortHeader(header: Row, data: Row)
    requires |header| == 8 && |data| == 9
    ensures ActionRecords([header, data]) == [ActionFromRow(data)]
  {
    KeptSnoc([], header, CorporateActionsMinCells);
    KeptSnoc([header], data, CorporateActionsMinCells);
    assert [] + [header] == [header];
    assert [header] + [data] == [header, data];
    assert Kept([header, data], CorporateActionsMinCells) == [data];
  }

  /** A plain text cell, as `get_text(strip=True)` reads it. */
  function TextCell(text: string): Cell {
    Cell(text, None, map[], None)
  }

  /** The nine cells of a dividend row map positionally onto the record, dashes included. */
  lemma CorporateActionsDividendRow()
    ensures var tds := [TextCell("RELIANCE"), TextCell("Reliance Industries Limited"), TextCell("EQ"),
                        TextCell("Dividend - Rs 5.5 Per Share"), TextCell("10"), TextCell("14-Aug-2025"),
                        TextCell("14-Aug-2025"), TextCell("-"), TextCell("-")];
            ActionRecords([tds])
            == [ActionRecord("RELIANCE", "Reliance Industries Limited", "EQ", "Dividend - Rs 5.5 Per Share",
                             "10", "14-Aug-2025", "14-Aug-2025", "-", "-")]
  {
    var tds := [TextCell("RELIANCE"), TextCell("Reliance Industries Limited"), TextCell("EQ"),
                TextCell("Dividend - Rs 5.5 Per Share"), TextCell("10"), TextCell("14-Aug-2025"),
                TextCell("14-Aug-2025"), TextCell("-"), TextCell("-")];
    MapKeptSnoc([], tds, CorporateActionsMinCells, ActionRowMaker());
    assert [] + [tds] == [tds];
  }

  // ---------------------------------------------------------------------------
  // Entry point
  // ---------------------------------------------------------------------------

  /** `get_corporate_actions_for_symbol`: the API answer if it has rows; otherwise the page is
      fetched and parsed, an empty parse being a successful `[]` and a failed fetch an error.
      `gets` and `primes` count the page GETs and re-primes of the HTML tier. */
  method GetCorporateActionsForSymbol(symbol: string, reply: ApiReply, script: seq<Response>)
    returns (r: Result<seq<ActionRecord>, CategoryError>, gets: nat, primes: nat)
    requires |script| >= MaxRetries
    ensures var api := CorporateActionsApi(reply, NormalizeSymbol(symbol));
            api.Success? && api.value != [] ==> r == Success(api.value) && gets == 0 && primes == 0
    ensures var api := CorporateActionsApi(reply, NormalizeSymbol(symbol));
            var f := FetchHtmlSpec(script);
            !(api.Success? && api.value != []) ==>
              gets == f.gets && primes == f.primes
              && (f.result.Success? ==> r == Success(CorporateActionsTable(f.result.value)))
              && (f.result.Failure? ==> r == Failure(FetchFailed(CorporateActions, NormalizeSymbol(symbol), f.result.error)))
  {
    var sym := NormalizeSymbol(symbol);
    var api := FetchCorporateActionsApi(reply, sym);
    if api.Success? && api.value != [] {
      return Success(api.value), 0, 0;
    }
    var page;
    page, gets, primes := FetchHtml(script);
    if page.Failure? {
      return Failure(FetchFailed(CorporateActions, sym, page.error)), gets, primes;
    }
    var rows := ParseCorporateActionsTable(page.value);
    r := Success(rows);
  }
}
