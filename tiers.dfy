/**
 * What the four `get_*_for_symbol` entry points share: the symbol normalisation they apply
 * first, and the error they raise when the HTML tier fails.
 */
module Tiers {
  import opened PyText
  import opened HtmlFetch

  datatype Category = EventCalendar | BoardMeetings | CorporateActions | Announcements

  /** `RuntimeError("Failed to fetch <category> for <symbol>: <cause>")`. */
  datatype CategoryError = FetchFailed(category: Category, symbol: string, cause: FetchError)

  /** `symbol.upper().strip()`. */
  function NormalizeSymbol(symbol: string): (s: string)
    ensures NoLowerCase(s)
    ensures s == [] || (!IsSpace(s[0]) && !IsSpace(s[|s| - 1]))
    ensures |s| <= |symbol|
  {
    Strip(Upper(symbol))
  }

  /** Normalising an already normalised symbol changes nothing, so the API tier and the HTML
      tier see the same symbol however often it is normalised. */
  lemma NormalizeSymbolIdempotent(symbol: string)
    ensures NormalizeSymbol(NormalizeSymbol(symbol)) == NormalizeSymbol(symbol)
  {
    var s := NormalizeSymbol(symbol);
    UpperKeepsUpperCase(s);
    StripKeepsTrimmed(s);
  }

  /** A symbol that is already upper-case and trimmed is used as given. */
  lemma NormalizeSymbolKeepsCanonical(symbol: string)
    requires NoLowerCase(symbol)
    requires symbol == [] || (!IsSpace(symbol[0]) && !IsSpace(symbol[|symbol| - 1]))
    ensures NormalizeSymbol(symbol) == symbol
  {
    UpperKeepsUpperCase(symbol);
    StripKeepsTrimmed(symbol);
  }
}
