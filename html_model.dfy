/**
 * The parsed page, reduced to what the table extractors look at. A document is its tables
 * in document order; a table has an optional `id`, its class list and an optional `tbody`;
 * a body is its rows and a row its `td` cells. A cell carries its stripped text
 * (`get_text(strip=True)`), its first anchor, its attributes and the stripped text of its
 * first `span.content`.
 */
module HtmlModel {
  import opened Wrappers
  import opened PyText

  datatype Anchor = Anchor(text: string, href: Option<string>)

  datatype Cell = Cell(
    text: string,
    anchor: Option<Anchor>,
    attrs: map<string, string>,
    contentSpan: Option<string>)

  type Row = seq<Cell>

  datatype Table = Table(id: Option<string>, classes: seq<string>, tbody: Option<seq<Row>>)

  type Document = seq<Table>

  // ---------------------------------------------------------------------------
  // Finding the table
  // ---------------------------------------------------------------------------

  /** The position of the first table that `matches` accepts, as `soup.find` scans. */
  function FirstMatch(doc: Document, matches: Table -> bool): (k: Option<nat>)
    ensures k.None? ==> forall j :: 0 <= j < |doc| ==> !matches(doc[j])
    ensures k.Some? ==> k.value < |doc| && matches(doc[k.value])
                        && forall j :: 0 <= j < k.value ==> !matches(doc[j])
  {
    if doc == [] then None
    else if matches(doc[0]) then Some(0)
    else
      match FirstMatch(doc[1..], matches)
      case None => None
      case Some(k) => Some(k + 1)
  }

  /** `soup.find("table", ...)`: the first matching table, or `None`. */
  function FindTable(doc: Document, matches: Table -> bool): Option<Table> {
    match FirstMatch(doc, matches)
    case None => None
    case Some(k) => Some(doc[k])
  }

  /** The filter `id="..."`. */
  function HasId(id: string): Table -> bool {
    (t: Table) => t.id == Some(id)
  }

  /** The rows under the table's `tbody`; `None` when there is no table or no body. */
  function BodyRows(found: Option<Table>): Option<seq<Row>> {
    match found
    case None => None
    case Some(t) => t.tbody
  }

  // ---------------------------------------------------------------------------
  // Dropping short rows
  // ---------------------------------------------------------------------------

  /** The rows with at least `minCells` cells, in body order: the rows the loops do not skip. */
  function Kept(rows: seq<Row>, minCells: nat): (kept: seq<Row>)
    ensures |kept| <= |rows|
    ensures forall i :: 0 <= i < |kept| ==> |kept[i]| >= minCells
  {
    if rows == [] then []
    else
      var init := Kept(rows[..|rows| - 1], minCells);
      if |rows[|rows| - 1]| >= minCells then init + [rows[|rows| - 1]] else init
  }

  /** Appending one row to the body appends it to the kept rows exactly when it is long enough. */
  lemma KeptSnoc(rows: seq<Row>, row: Row, minCells: nat)
    ensures Kept(rows + [row], minCells)
            == Kept(rows, minCells) + (if |row| >= minCells then [row] else [])
  {
    assert (rows + [row])[..|rows|] == rows;
  }

  /** Filtering commutes with concatenation, so the kept rows keep their body order. */
  lemma {:induction false} KeptAppend(a: seq<Row>, b: seq<Row>, minCells: nat)
    ensures Kept(a + b, minCells) == Kept(a, minCells) + Kept(b, minCells)
  {
    if b == [] {
      assert a + b == a;
    } else {
      var n := |b| - 1;
      KeptAppend(a, b[..n], minCells);
      assert (a + b)[..|a + b| - 1] == a + b[..n];
    }
  }

  /** A row survives exactly when it is in the body and has at least `minCells` cells. */
  lemma {:induction false} KeptMembers(rows: seq<Row>, minCells: nat, row: Row)
    ensures row in Kept(rows, minCells) <==> row in rows && |row| >= minCells
  {
    if rows != [] {
      var n := |rows| - 1;
      KeptMembers(rows[..n], minCells, row);
      assert rows == rows[..n] + [rows[n]];
    }
  }

  /** Nothing is kept exactly when every row is short. */
  lemma KeptEmpty(rows: seq<Row>, minCells: nat)
    ensures Kept(rows, minCells) == [] <==> forall r :: r in rows ==> |r| < minCells
  {
    if Kept(rows, minCells) != [] {
      KeptMembers(rows, minCells, Kept(rows, minCells)[0]);
    } else {
      forall r | r in rows ensures |r| < minCells {
        KeptMembers(rows, minCells, r);
      }
    }
  }

  /** Filter then map: `f` applied to every row with at least `minCells` cells, in body order. */
  function MapKept<R>(rows: seq<Row>, minCells: nat, f: Row --> R): seq<R>
    requires forall r: Row :: |r| >= minCells ==> f.requires(r)
  {
    var kept := Kept(rows, minCells);
    seq(|kept|, i requires 0 <= i < |kept| => f(kept[i]))
  }

  /** One more body row adds its record exactly when it is long enough. */
  lemma MapKeptSnoc<R>(rows: seq<Row>, row: Row, minCells: nat, f: Row --> R)
    requires forall r: Row :: |r| >= minCells ==> f.requires(r)
    ensures MapKept(rows + [row], minCells, f)
            == MapKept(rows, minCells, f) + (if |row| >= minCells then [f(row)] else [])
  {
    KeptSnoc(rows, row, minCells);
  }

  /** The row loop of a table extractor: every `tr` of the body whose `td` count is below
      `minCells` is skipped, every other one becomes `f` of its cells, in body order. */
  method MapRows<R>(trs: seq<Row>, minCells: nat, f: Row --> R) returns (out: seq<R>)
    requires forall r: Row :: |r| >= minCells ==> f.requires(r)
    ensures out == MapKept(trs, minCells, f)
  {
    out := [];
    var i := 0;
    while i < |trs|
      invariant 0 <= i <= |trs|
      invariant out == MapKept(trs[..i], minCells, f)
    {
      var tds := trs[i];
      MapKeptSnoc(trs[..i], tds, minCells, f);
      assert trs[..i + 1] == trs[..i] + [tds];
      if |tds| >= minCells {
        out := out + [f(tds)];
      }
      i := i + 1;
    }
    assert trs[..i] == trs;
  }

  // ---------------------------------------------------------------------------
  // Column rules
  // ---------------------------------------------------------------------------

  /** Symbol columns: the text of the cell's anchor when it has one, else the cell's text. */
  function SymbolText(cell: Cell): (s: string)
    ensures cell.anchor.Some? ==> s == cell.anchor.value.text
    ensures cell.anchor.None? ==> s == cell.text
  {
    match cell.anchor
    case Some(a) => a.text
    case None => cell.text
  }

  /** Link columns: the anchor's `href` when the cell has an anchor carrying one, else `""`. */
  function LinkTarget(cell: Cell): (href: string)
    ensures cell.anchor.Some? && cell.anchor.value.href.Some? ==> href == cell.anchor.value.href.value
    ensures cell.anchor.None? || cell.anchor.value.href.None? ==> href == ""
  {
    if cell.anchor.Some? && cell.anchor.value.href.Some? then cell.anchor.value.href.value else ""
  }

  const PrevAttr := "data-ws-symbol-col-prev"
  const ColAttr := "data-ws-symbol-col"

  /** `cell.get(name)` read as a string, `""` standing for both absent and empty. */
  function Attr(cell: Cell, name: string): string {
    if name in cell.attrs then cell.attrs[name] else ""
  }

  /** Details columns: `cell.get(prev) or cell.get(col)`, stripped when truthy; otherwise
      the `span.content` text, otherwise the cell text. */
  function RichText(cell: Cell): (details: string)
    ensures Attr(cell, PrevAttr) != "" ==> details == Strip(cell.attrs[PrevAttr])
    ensures Attr(cell, PrevAttr) == "" && Attr(cell, ColAttr) != ""
            ==> details == Strip(cell.attrs[ColAttr])
    ensures Attr(cell, PrevAttr) == "" && Attr(cell, ColAttr) == "" && cell.contentSpan.Some?
            ==> details == cell.contentSpan.value
    ensures Attr(cell, PrevAttr) == "" && Attr(cell, ColAttr) == "" && cell.contentSpan.None?
            ==> details == cell.text
  {
    var full := if Attr(cell, PrevAttr) != "" then Attr(cell, PrevAttr) else Attr(cell, ColAttr);
    if full != "" then Strip(full)
    else
      match cell.contentSpan
      case Some(span) => span
      case None => cell.text
  }

  /** A data attribute holding only whitespace still wins, and hides the span and the cell text. */
  lemma RichTextBlankAttribute(cell: Cell)
    requires Attr(cell, PrevAttr) != ""
    requires forall i :: 0 <= i < |cell.attrs[PrevAttr]| ==> IsSpace(cell.attrs[PrevAttr][i])
    ensures RichText(cell) == ""
  {
    StripAllSpaces(cell.attrs[PrevAttr]);
  }
}
