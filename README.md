# NSE corporate-filings scraper: a Dafny model

The scraper collects four categories of corporate filings for one stock symbol from the
National Stock Exchange of India:
- the event calendar
- board meetings
- corporate actions
- announcements

For each category it first asks the exchange's JSON API. It maps every item of the reply to
a flat record, using a field-tolerant picker that tries several candidate keys. If the API
fails or yields no rows, it fetches the category's HTML page with a retry loop that
re-primes the session when it is blocked. It then extracts the rows of the category's
table by column position.

This project models that core in Dafny:

- **The field picker** (`FieldPicker`, over `JsonValues` and `PyText`). `_pick` takes the
  first candidate key whose value is neither `None` nor `""`, and answers that value's
  stripped `str()` text.
- **JSON values as Python sees them.** `dict.get` answers the last duplicate member.
  Python truthiness and `str()`/`repr()` are modelled, as is the expression that chooses the
  item list: `data` if truthy, else `rows` if truthy, else the payload, else `[]`. As
  written, the payload itself never supplies items: `payload.get` has already failed on
  anything that is not a dict, and iterating a dict yields its keys, which fail at
  `item.get` (`JsonValues.WholePayloadNeverSuppliesItems`).
- **Four API mappers.** Each is a loop over the items (the generic `JsonValues.MapItems`
  with the category's record maker), proved equal to a specification function that maps
  every item to a record. The specification reads the item list exactly as the code
  does. A second function per category (`*ApiIntended`) reads a top-level list as the
  item list; see Findings.
- **Four table extractors** (`HtmlModel`). A parsed page is a sequence of tables, each with
  an id, its classes and the rows of its body. Each extractor finds its table (the
  announcements one by a three-step lookup) and skips rows with too few cells. It applies
  the column rules: anchored symbol text, anchor `href` links, and the details cell's data
  attributes / `span.content` / text. Each extractor is a loop (the generic
  `HtmlModel.MapRows`) proved equal to a filter-then-map specification.
- **The `_fetch_html` retry loop** (`HtmlFetch`). The server's answers to the three
  attempts are given as a script. The loop is proved equal to a recursive specification,
  and that specification is given a closed form.
- **The four `get_*_for_symbol` entry points.** Each one normalises the symbol
  (`upper().strip()`) and returns the API rows if there are any. Otherwise it returns the
  table parsed from the fetched page, or a category error that carries the fetch failure.
  The API rows are those of the code as written, so a reply that is a top-level list
  falls back to the page.

The network is replaced by parameters. An API call is an `ApiReply`: either the decoded
body, or a failure of the request, of the status check or of JSON decoding. The page GETs
are a script of `Response`s. The entry points also return how many page GETs and session
re-primes were made.

The retry loop re-primes the session after a 403 on each of the first two attempts, so a
page that stays blocked is fetched three times with two re-primes
(`HtmlFetch.FetchHtmlBlockedThrice`).

## Model

| member | source | states |
|---|---|---|
| PyText.Strip | scraper.py:76 | `strip()` removes a run of whitespace at each end and nothing else; the result neither starts nor ends with whitespace |
| PyText.StripKeepsTrimmed | scraper.py:76 | a string already free of whitespace at both ends is unchanged by `strip()` |
| PyText.StripIdempotent | scraper.py:76 | `strip()` applied twice equals `strip()` applied once |
| PyText.StripAllSpaces | scraper.py:76 | a whitespace-only string strips to `""` |
| PyText.Upper | scraper.py:481 | `upper()` maps every character and leaves no lower-case ASCII letter |
| PyText.Lower | scraper.py:349 | `lower()` maps every character and leaves no upper-case ASCII letter |
| PyText.UpperKeepsUpperCase | scraper.py:481 | upper-casing a string without lower-case letters changes nothing |
| PyText.LowerOfUpper | scraper.py:349 | lower-casing an upper-cased string gives the string lower-cased, so the lowered class test ignores case |
| JsonValues.Get | scraper.py:74 | `dict.get(key)`: the value of the last member with that name, else `None`; its properties are `GetAbsent` and `GetLastMember` |
| JsonValues.GetAbsent | scraper.py:74 | `item.get(key)` is `None` when no member has that name |
| JsonValues.GetLastMember | scraper.py:74 | `item.get(key)` is the value of the last member with that name |
| JsonValues.Truthy | scraper.py:89 | Python truthiness of a JSON value, as the `or` chain tests it: `None`, `False`, `0`, `""`, `[]` and `{}` are false |
| JsonValues.Str | scraper.py:76 | Python `str()` of a JSON value; `StrOfScalarIsTrimmed` states its property |
| JsonValues.StrOfScalarIsTrimmed | scraper.py:76 | `str()` of a number or boolean is non-empty and survives `strip()` unchanged |
| JsonValues.Chosen | scraper.py:89 | on a dict payload: `data` when truthy; else `rows` when truthy; else the payload when non-empty; else `[]` |
| JsonValues.PayloadItemsAsWritten | scraper.py:89 | the list the item loop iterates, as written: a non-dict payload fails at `payload.get`, a chosen value that is not a list fails; the properties are the three lemmas below |
| JsonValues.ArrayPayloadRejectedAsWritten | scraper.py:89 | as written, a top-level JSON array payload fails at `payload.get` |
| JsonValues.WholePayloadNeverSuppliesItems | scraper.py:89 | as written, every non-empty item list comes from `data` or `rows`, never from `or payload` |
| JsonValues.EmptyDataListFails | scraper.py:89 | `{"data": []}` is an error, not an empty list: the dict's own keys are iterated |
| JsonValues.PayloadItems | scraper.py:89 | a top-level array is the item list; every other payload is handled exactly as written |
| JsonValues.MapObjects | scraper.py:90-104 | one record per item, in item order, each the record maker applied to that item's members |
| JsonValues.MapItems | scraper.py:90-104 | the item loop: it succeeds exactly when every item is a dict, and then yields `MapObjects` |
| FieldPicker.Pick | scraper.py:72-77 | `_pick`; its properties are the lemmas below |
| FieldPicker.PickNoneUsable | scraper.py:72-77 | when every candidate's value is missing, `None` or `""`, the default comes back unchanged |
| FieldPicker.PickFirstUsable | scraper.py:72-77 | when candidate `k` is usable and every earlier one is not, the result is the stripped `str()` of candidate `k`'s value |
| FieldPicker.PickMissingKeys | scraper.py:72-77 | an item without any candidate key gives the default unchanged |
| FieldPicker.PickBlankStringWins | scraper.py:75-76 | a whitespace-only string under the first key wins and yields `""`, since emptiness is tested before stripping |
| FieldPicker.PickScalarWins | scraper.py:75-76 | `0` or `False` under the first key wins with its Python text, never the default |
| FieldPicker.PickSkipsNull | scraper.py:74-75 | a `null` value is skipped like a missing key |
| FieldPicker.PickIsStrippedOrDefault | scraper.py:72-77 | the picked text is the default or already stripped |
| HtmlModel.FirstMatch | scraper.py:172 | `soup.find` answers the first table the filter accepts, and none when no table matches |
| HtmlModel.FindTable | scraper.py:172 | `soup.find("table", ...)`: the first table the filter accepts, found by `FirstMatch` |
| HtmlModel.Kept | scraper.py:181-184 | the rows kept are no more than the body's and each has at least the minimum number of cells |
| HtmlModel.KeptSnoc | scraper.py:181-184 | one more body row is appended to the kept rows exactly when it is long enough |
| HtmlModel.KeptAppend | scraper.py:181-184 | the row filter commutes with concatenation, so kept rows stay in body order |
| HtmlModel.KeptMembers | scraper.py:181-184 | a row is kept if and only if it is in the body and has enough cells |
| HtmlModel.KeptEmpty | scraper.py:181-184 | nothing is kept exactly when every body row is short |
| HtmlModel.MapKept | scraper.py:181-222 | the tbody loop's specification: the row mapper applied to every kept row, in body order |
| HtmlModel.MapKeptSnoc | scraper.py:181-222 | one more body row adds its record exactly when it has enough cells |
| HtmlModel.MapRows | scraper.py:181-222 | the tbody loop equals `MapKept` |
| HtmlModel.SymbolText | scraper.py:186-189 | the symbol column is the anchor's text when the cell has an anchor, else the cell's text |
| HtmlModel.LinkTarget | scraper.py:257-260 | a link column is the anchor's `href` when present, else `""` |
| HtmlModel.RichText | scraper.py:197-208 | details: the stripped `-prev` attribute, else the stripped column attribute, else the `span.content` text, else the cell text |
| HtmlModel.RichTextBlankAttribute | scraper.py:200-202 | a whitespace-only data attribute still wins and yields `""` |
| HtmlFetch.RunFrom | scraper.py:434-472 | the retry loop from one attempt on, as a recursive specification; `RunFromClosedForm` states its meaning |
| HtmlFetch.FetchHtmlSpec | scraper.py:417-474 | `_fetch_html` as the run from the first attempt; its properties are the lemmas below |
| HtmlFetch.FetchHtml | scraper.py:433-474 | the retry loop's outcome, GET count and re-prime count equal the recursive specification's |
| HtmlFetch.RunFromClosedForm | scraper.py:434-472 | from any attempt: the run stops at the first non-retryable answer or the last attempt, re-primes once per 403 before it, and ends as that answer's verdict |
| HtmlFetch.FetchHtmlClosedForm | scraper.py:433-472 | one to three GETs; all answers before the deciding one are 403s or transport errors; re-primes equal the 403s before it |
| HtmlFetch.FetchHtmlNeverExhausts | scraper.py:474 | the final `raise` after the loop is unreachable, and there are fewer re-primes than GETs |
| HtmlFetch.BlocksBound | scraper.py:443-451 | counting helper for the re-prime bound in `FetchHtmlNeverExhausts`: no more 403 answers than answers |
| HtmlFetch.FetchHtmlSucceeds | scraper.py:443-456 | the page comes back if and only if some attempt gets a non-error, non-403 status after only retryable answers, and it is that attempt's body |
| HtmlFetch.FetchHtmlHttpErrorIsFinal | scraper.py:455-468 | an HTTP error status other than 403 fails at once, after one GET and no re-prime |
| HtmlFetch.FetchHtmlBlockedThrice | scraper.py:443-453 | three 403s mean three GETs, two re-primes and a blocking error |
| Tiers.NormalizeSymbol | scraper.py:481 | the normalised symbol has no lower-case letter, no surrounding whitespace, and is no longer than the input |
| Tiers.NormalizeSymbolIdempotent | scraper.py:481 | normalising twice equals normalising once |
| Tiers.NormalizeSymbolKeepsCanonical | scraper.py:481 | an upper-case, trimmed symbol is used as given |
| EventCalendarScraper.EventFromItem | scraper.py:150-161 | the record dict built from one item, each field by `_pick` over its candidate keys; `EventFromBareItem` states its property |
| EventCalendarScraper.EventsFromItems | scraper.py:148-163 | the records of an all-dict item list, one per item in item order, by `MapObjects` |
| EventCalendarScraper.EventCalendarApiWith | scraper.py:138-163 | the API function with the item-list reading as a parameter: a request failure, the reading's failure, a failure on a non-dict item, or the records |
| EventCalendarScraper.EventCalendarApi | scraper.py:138-163 | what the API function returns or raises, the item list read as written |
| EventCalendarScraper.EventCalendarApiIntended | scraper.py:147 | the same with a top-level list read as the item list (corrected reading, see Findings) |
| EventCalendarScraper.FetchEventCalendarApi | scraper.py:138-163 | the item loop's result is the as-written API specification: a request or payload failure, a failure on a non-dict item, or one record per item |
| EventCalendarScraper.EventCalendarApiOnePerItem | scraper.py:148-163 | on a payload the code can read: success exactly when every item is a dict; then one record per item, in item order |
| EventCalendarScraper.EventCalendarListPayload | scraper.py:147 | a top-level list reply fails as written, and as intended yields one record per element |
| EventCalendarScraper.EventCalendarApiAgreesOffLists | scraper.py:147 | both readings agree on every reply that is not a top-level list |
| EventCalendarScraper.EventFromBareItem | scraper.py:150-161 | an item with no candidate key maps to the queried symbol and empty fields |
| EventCalendarScraper.EventFromRow | scraper.py:185-222 | one table row with enough cells mapped to a record by the column rules |
| EventCalendarScraper.EventRecords | scraper.py:181-222 | the records of the kept body rows, by `MapKept` |
| EventCalendarScraper.EventCalendarTable | scraper.py:166-224 | what the table parser returns for a page; `EventCalendarTableRows` states its meaning |
| EventCalendarScraper.ParseEventCalendarTable | scraper.py:166-224 | the tbody loop's result is the filter-then-map specification |
| EventCalendarScraper.EventCalendarTableRows | scraper.py:166-224 | no table or body gives `[]`; else one record per row with at least four cells, each column by its rule, date `""` for a four-cell row |
| EventCalendarScraper.GetEventCalendarForSymbol | scraper.py:477-497 | non-empty API rows (read as written) win with no page GET; otherwise the parsed page, or a category error carrying the fetch failure |
| BoardMeetingsScraper.MeetingFromItem | scraper.py:120-133 | the record dict built from one item, each field by `_pick` over its candidate keys; `MeetingFromBareItem` states its property |
| BoardMeetingsScraper.MeetingsFromItems | scraper.py:118-135 | the records of an all-dict item list, one per item in item order, by `MapObjects` |
| BoardMeetingsScraper.BoardMeetingsApiWith | scraper.py:108-135 | the API function with the item-list reading as a parameter: a request failure, the reading's failure, a failure on a non-dict item, or the records |
| BoardMeetingsScraper.BoardMeetingsApi | scraper.py:108-135 | what the API function returns or raises, the item list read as written |
| BoardMeetingsScraper.BoardMeetingsApiIntended | scraper.py:117 | the same with a top-level list read as the item list (corrected reading, see Findings) |
| BoardMeetingsScraper.FetchBoardMeetingsApi | scraper.py:108-135 | the item loop's result is the as-written API specification: a request or payload failure, a failure on a non-dict item, or one record per item |
| BoardMeetingsScraper.BoardMeetingsApiOnePerItem | scraper.py:118-135 | on a payload the code can read: success exactly when every item is a dict; then one record per item, in item order |
| BoardMeetingsScraper.BoardMeetingsListPayload | scraper.py:117 | a top-level list reply fails as written, and as intended yields one record per element |
| BoardMeetingsScraper.BoardMeetingsApiAgreesOffLists | scraper.py:117 | both readings agree on every reply that is not a top-level list |
| BoardMeetingsScraper.MeetingFromBareItem | scraper.py:120-133 | an item with no candidate key maps to the queried symbol and empty fields |
| BoardMeetingsScraper.MeetingFromRow | scraper.py:245-282 | one table row with enough cells mapped to a record by the column rules |
| BoardMeetingsScraper.MeetingRecords | scraper.py:241-282 | the records of the kept body rows, by `MapKept` |
| BoardMeetingsScraper.BoardMeetingsTable | scraper.py:227-284 | what the table parser returns for a page; `BoardMeetingsTableRows` states its meaning |
| BoardMeetingsScraper.ParseBoardMeetingsTable | scraper.py:227-284 | the tbody loop's result is the filter-then-map specification |
| BoardMeetingsScraper.BoardMeetingsTableRows | scraper.py:227-284 | no table or body gives `[]`; else one record per row with at least seven cells, each column by its rule |
| BoardMeetingsScraper.MeetingWithoutLinks | scraper.py:257-268 | a row whose link cells have no anchor is still emitted, with empty links |
| BoardMeetingsScraper.GetBoardMeetingsForSymbol | scraper.py:500-519 | non-empty API rows (read as written) win with no page GET; otherwise the parsed page, or a category error carrying the fetch failure |
| CorporateActionsScraper.ActionFromItem | scraper.py:92-103 | the record dict built from one item, each field by `_pick` over its candidate keys; `ActionFromBareItem` states its property |
| CorporateActionsScraper.ActionsFromItems | scraper.py:90-105 | the records of an all-dict item list, one per item in item order, by `MapObjects` |
| CorporateActionsScraper.CorporateActionsApiWith | scraper.py:80-105 | the API function with the item-list reading as a parameter: a request failure, the reading's failure, a failure on a non-dict item, or the records |
| CorporateActionsScraper.CorporateActionsApi | scraper.py:80-105 | what the API function returns or raises, the item list read as written |
| CorporateActionsScraper.CorporateActionsApiIntended | scraper.py:89 | the same with a top-level list read as the item list (corrected reading, see Findings) |
| CorporateActionsScraper.FetchCorporateActionsApi | scraper.py:80-105 | the item loop's result is the as-written API specification: a request or payload failure, a failure on a non-dict item, or one record per item |
| CorporateActionsScraper.CorporateActionsApiOnePerItem | scraper.py:90-105 | on a payload the code can read: success exactly when every item is a dict; then one record per item, in item order |
| CorporateActionsScraper.CorporateActionsListPayload | scraper.py:89 | a top-level list reply fails as written, and as intended yields one record per element |
| CorporateActionsScraper.CorporateActionsApiAgreesOffLists | scraper.py:89 | both readings agree on every reply that is not a top-level list |
| CorporateActionsScraper.ActionFromBareItem | scraper.py:92-103 | an item with no candidate key maps to the queried symbol and empty fields |
| CorporateActionsScraper.ActionNumericFaceValue | scraper.py:98 | a numeric `faceVal` becomes its decimal text, never `""` |
| CorporateActionsScraper.ActionFromRow | scraper.py:305-331 | one table row with enough cells mapped to a record by the column rules |
| CorporateActionsScraper.ActionRecords | scraper.py:301-331 | the records of the kept body rows, by `MapKept` |
| CorporateActionsScraper.CorporateActionsTable | scraper.py:287-333 | what the table parser returns for a page; `CorporateActionsTableRows` states its meaning |
| CorporateActionsScraper.ParseCorporateActionsTable | scraper.py:287-333 | the tbody loop's result is the filter-then-map specification |
| CorporateActionsScraper.CorporateActionsTableRows | scraper.py:287-333 | no table or body gives `[]`; else one record per row with at least nine cells, columns by position |
| CorporateActionsScraper.CorporateActionsSkipsShortHeader | scraper.py:303-304 | an eight-cell header row is skipped and a nine-cell data row is mapped |
| CorporateActionsScraper.CorporateActionsDividendRow | scraper.py:303-331 | a nine-cell dividend row for RELIANCE maps positionally, cell by cell, onto the record |
| CorporateActionsScraper.GetCorporateActionsForSymbol | scraper.py:522-541 | non-empty API rows (read as written) win with no page GET; otherwise the parsed page, or a category error carrying the fetch failure |
| AnnouncementsScraper.AnnouncementFromItem | scraper.py:560-570 | the record dict built from one item, each field by `_pick` over its candidate keys; `AnnouncementFromBareItem` states its property |
| AnnouncementsScraper.AnnouncementsFromItems | scraper.py:558-571 | the records of an all-dict item list, one per item in item order, by `MapObjects` |
| AnnouncementsScraper.AnnouncementsApiWith | scraper.py:544-574 | the API function with the item-list reading as a parameter; every failure is caught and becomes `[]` |
| AnnouncementsScraper.AnnouncementsApi | scraper.py:544-574 | what `_fetch_announcements_api` returns, the item list read as written |
| AnnouncementsScraper.AnnouncementsApiIntended | scraper.py:557 | the same with a top-level list read as the item list (corrected reading, see Findings) |
| AnnouncementsScraper.FetchAnnouncementsApi | scraper.py:544-574 | the item loop's result is the as-written API specification, every failure becoming `[]` |
| AnnouncementsScraper.AnnouncementsApiAllOrNothing | scraper.py:544-574 | one record per item, in item order, when the item list can be read as written and every item is a dict; `[]` on any failure |
| AnnouncementsScraper.AnnouncementsListPayload | scraper.py:557 | a top-level list reply fails as written (giving `[]`), and as intended yields one record per element |
| AnnouncementsScraper.AnnouncementsApiAgreesOffLists | scraper.py:557 | both readings agree on every reply that is not a top-level list |
| AnnouncementsScraper.AnnouncementFromBareItem | scraper.py:560-570 | an item with no candidate key maps to the queried symbol and empty fields |
| AnnouncementsScraper.HasAnncClass | scraper.py:349 | the class filter: some class of the table contains `annc` after lower-casing |
| AnnouncementsScraper.AnnouncementsTableFound | scraper.py:343-352 | the three-step table lookup; `AnnouncementsLookupOrder` states its meaning |
| AnnouncementsScraper.AnnouncementsLookupOrder | scraper.py:343-352 | main id first, anywhere in the page; alternative id only without it; `annc` class only without both; nothing found exactly when no table passes any test |
| AnnouncementsScraper.AnncClassIgnoresCase | scraper.py:349 | an upper-case `ANNC-TABLE` class passes the class filter |
| AnnouncementsScraper.HasAnncClassIgnoresCase | scraper.py:349 | upper-casing every class of a table never changes whether it passes the class filter |
| AnnouncementsScraper.AnnouncementFromRow | scraper.py:364-412 | one table row with enough cells mapped to a record by the column rules |
| AnnouncementsScraper.AnnouncementRecords | scraper.py:360-412 | the records of the kept body rows, by `MapKept` |
| AnnouncementsScraper.AnnouncementsTable | scraper.py:336-414 | what the table parser returns for a page; `AnnouncementsTableRows` states its meaning |
| AnnouncementsScraper.ParseAnnouncementsTable | scraper.py:336-414 | the tbody loop's result is the filter-then-map specification on the table found |
| AnnouncementsScraper.AnnouncementsTableRows | scraper.py:336-414 | no table or body gives `[]`; else one record per row with at least seven cells, each column by its rule |
| AnnouncementsScraper.AnnouncementWithoutXbrl | scraper.py:394-397 | a row whose XBRL cell has no anchor is still emitted, with `xbrl_link` `""` |
| AnnouncementsScraper.GetAnnouncementsForSymbol | scraper.py:577-599 | non-empty API rows (read as written) win with no page GET; otherwise the parsed page, or a category error carrying the fetch failure |

## Left out

- `_init_nse_session` and every HTTP request: these are network I/O. API replies and page answers are parameters. The home-page re-prime is counted, not performed.
- The browser-header updates and `session.headers` merging: these are configuration without effect on results.
- `time.sleep` between attempts: timing only.
- The exact text of the `RuntimeError` messages. Errors are structured values: the category, the normalised symbol and the cause.
- HTML parsing by lxml/BeautifulSoup. A page is modelled as its already-parsed tables, with stripped cell texts, each cell's first anchor, its attributes and its first `span.content` text.
- JSON floating-point numbers: there is no float value.
- JsonValues.Repr: `repr()` of a string does not pick the quote character or escape characters as Python does. A nested object with duplicate keys prints every member instead of the collapsed dict.
- PyText.Upper and PyText.Lower: only ASCII letters change case. Python's full Unicode case mapping is not modelled. For the `"annc"` class test this loses nothing.
- The `headless` parameter of the entry points: it is unused.
- `app.py`: the HTTP front end is not part of this model.
- The equity quote and financial-results scrapers are not part of this model.
- The `requests.HTTPError` branch of `_fetch_html` (scraper.py:458-468) is not a separate path. `raise_for_status` runs only after the 403 test, so a 403 never reaches that branch. Its remaining effect, failing with the status code, is `HttpError(code)`.
- Tiers.NormalizeSymbol: the length bound holds only under the ASCII case mapping modelled here; Python's `upper()` can lengthen a string (`'ß'` becomes `'SS'`).
- The entry points keep the code's as-written reading of the payload; the corrected `*ApiIntended` functions are not wired into them.

## Findings

| source | as written | input that shows it | evidently intended | confidence | as-written member | corrected member |
|---|---|---|---|---|---|---|
| scraper.py:89 (also 117, 147, 557) | `payload.get("data") or payload.get("rows") or payload or []` calls `.get` before `or payload` can take a top-level list, so a list reply raises `AttributeError` and the API tier is abandoned | a reply body that is a JSON array of objects | a list payload is itself the item list: any truthy payload that reaches `or payload` as written is a dict, whose keys fail at `item.get`, so that alternative can only ever supply items if the payload is a list (`WholePayloadNeverSuppliesItems`) | medium, not executed | JsonValues.ArrayPayloadRejectedAsWritten | JsonValues.PayloadItems |

The per-category lemmas `*ListPayload` show both halves on a list reply: the as-written API function fails, while `*ApiIntended` (built on `PayloadItems`) yields one record per element. `*ApiAgreesOffLists` shows the two readings differ on nothing else.
