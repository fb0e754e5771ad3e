/**
 * The three context formatters of the agent: each turns one facet of the
 * live context into the text that fills its placeholder. A missing or empty
 * facet gets a fixed fallback, a missing key inside a present facet "N/A"
 * (price, fundamentals) or the empty string (news items).
 */
module ContextFormat {
  import opened Wrappers
  import opened Text
  import opened McpClient

  /**
   * The live context as `build_prompt` reads it: each facet present or not.
   * A missing `live_context`, a missing key and a `None` value all read as
   * absent, and an absent facet formats like an empty one.
   */
  datatype LiveContext = LiveContext(price: Option<Record>, fundamentals: Option<Record>, news: Option<seq<Record>>)

  /** The context of a `None` or empty `live_context`. */
  const NoContext: LiveContext := LiveContext(None, None, None)

  /** The dictionary `get_stock_context` returns, read as a live context. */
  function FromStockContext(c: StockContext): LiveContext {
    LiveContext(Some(c.price), Some(c.fundamentals), Some(c.news))
  }

  // ---------------------------------------------------------------------------
  // Price and fundamentals
  // ---------------------------------------------------------------------------

  /** The price fields, in their fixed order. */
  function PriceFields(r: Record): seq<string> {
    ["Price: " + Field(r, "price", "N/A"),
     "Change: " + Field(r, "change", "N/A") + " (" + Field(r, "change_pct", "N/A") + "%)",
     "Volume: " + Field(r, "volume", "N/A"),
     "As of: " + Field(r, "timestamp", "N/A")]
  }

  /** `_format_price_context`: "N/A" exactly for an empty facet, else the fields joined by " | ". */
  function PriceContext(r: Record): (s: string)
    ensures s == "N/A" <==> r == map[]
    ensures r != map[] ==> s == Join(PriceFields(r), " | ")
  {
    if r == map[] then "N/A"
    else
      var s := Join(PriceFields(r), " | ");
      assert s[..7] == "Price: ";
      s
  }

  /** The fundamentals fields, in their fixed order; the industry is not shown. */
  function FundamentalsFields(r: Record): seq<string> {
    ["Market Cap: " + Field(r, "market_cap", "N/A"),
     "P/E: " + Field(r, "pe_ratio", "N/A"),
     "EPS: " + Field(r, "eps", "N/A"),
     "Dividend Yield: " + Field(r, "dividend_yield", "N/A") + "%",
     "52W High: " + Field(r, "52w_high", "N/A"),
     "52W Low: " + Field(r, "52w_low", "N/A"),
     "Sector: " + Field(r, "sector", "N/A")]
  }

  /** `_format_fundamentals_context`: "N/A" exactly for an empty facet, else the fields joined by " | ". */
  function FundamentalsContext(r: Record): (s: string)
    ensures s == "N/A" <==> r == map[]
    ensures r != map[] ==> s == Join(FundamentalsFields(r), " | ")
  {
    if r == map[] then "N/A"
    else
      var s := Join(FundamentalsFields(r), " | ");
      assert s[..12] == "Market Cap: ";
      s
  }

  /** Keys other than the shown ones never change a formatted facet. */
  lemma OnlyShownKeysMatter(r: Record, k: string, v: string)
    requires k !in {"price", "change", "change_pct", "volume", "timestamp"}
    requires k !in {"market_cap", "pe_ratio", "eps", "dividend_yield", "52w_high", "52w_low", "sector"}
    requires r != map[]
    ensures PriceContext(r[k := v]) == PriceContext(r)
    ensures FundamentalsContext(r[k := v]) == FundamentalsContext(r)
  {
    assert PriceFields(r[k := v]) == PriceFields(r);
    assert FundamentalsFields(r[k := v]) == FundamentalsFields(r);
  }

  // ---------------------------------------------------------------------------
  // News
  // ---------------------------------------------------------------------------

  const NoNews: string := "No recent news available."

  /** Line `n` of the news context: "n. [published_at] headline (source)". */
  function NewsLine(n: nat, item: Record): string {
    NatToString(n) + ". [" + Field(item, "published_at", "") + "] " + Field(item, "headline", "") + " ("
    + Field(item, "source", "") + ")"
  }

  /** The lines for the first five items at most, numbered from 1 in input order. */
  function NewsLines(news: seq<Record>): (lines: seq<string>)
    ensures |lines| == Min(5, |news|)
    ensures forall i | 0 <= i < |lines| :: lines[i] == NewsLine(i + 1, news[i])
  {
    var n := Min(5, |news|);
    seq(n, i requires 0 <= i < n => NewsLine(i + 1, news[i]))
  }

  /** `_format_news_context`, as a value. */
  function NewsContext(news: seq<Record>): string {
    if news == [] then NoNews else Join(NewsLines(news), "\n")
  }

  /** `_format_news_context`: builds the numbered lines one by one and joins them. */
  method FormatNewsContext(news: seq<Record>) returns (s: string)
    ensures s == NewsContext(news)
  {
    if news == [] {
      return NoNews;
    }
    var lines: seq<string> := [];
    var i := 0;
    while i < |news| && i < 5
      invariant 0 <= i <= Min(5, |news|)
      invariant |lines| == i
      invariant forall j | 0 <= j < i :: lines[j] == NewsLine(j + 1, news[j])
    {
      lines := lines + [NewsLine(i + 1, news[i])];
      i := i + 1;
    }
    assert lines == NewsLines(news);
    s := Join(lines, "\n");
  }

  /** A news field with no line break. */
  predicate SingleLine(item: Record) {
    forall k | k in item :: '\n' !in item[k]
  }

  lemma NewsLineSingle(n: nat, item: Record)
    requires SingleLine(item)
    ensures '\n' !in NewsLine(n, item)
  {
    var digits := NatToString(n);
    assert forall i | 0 <= i < |digits| :: digits[i] != '\n';
  }

  /** Each news line opens with its number, a full stop and the date's bracket. */
  lemma NewsLineNumbered(n: nat, item: Record)
    ensures StartsWith(NewsLine(n, item), NatToString(n) + ". [")
  {
    var p := NatToString(n) + ". [";
    var rest := Field(item, "published_at", "") + "] " + Field(item, "headline", "") + " (" + Field(item, "source", "") + ")";
    assert NewsLine(n, item) == p + rest;
    assert (p + rest)[..|p|] == p;
  }

  /**
   * When no field holds a line break, the news context of a non-empty list
   * has exactly one line per item up to five, line `i` being item `i`
   * numbered `i + 1`.
   */
  lemma NewsContextLines(news: seq<Record>)
    requires news != []
    requires forall i | 0 <= i < |news| :: SingleLine(news[i])
    ensures Split(NewsContext(news), '\n') == NewsLines(news)
    ensures |Split(NewsContext(news), '\n')| == Min(5, |news|)
    ensures forall i | 0 <= i < Min(5, |news|) ::
      StartsWith(Split(NewsContext(news), '\n')[i], NatToString(i + 1) + ". [")
  {
    var lines := NewsLines(news);
    assert Split(NewsContext(news), '\n') == lines by {
      forall i | 0 <= i < |lines|
        ensures '\n' !in lines[i]
      {
        NewsLineSingle(i + 1, news[i]);
      }
      SplitJoin(lines, '\n');
    }
    forall i | 0 <= i < |lines|
      ensures StartsWith(lines[i], NatToString(i + 1) + ". [")
    {
      NewsLineNumbered(i + 1, news[i]);
    }
  }

  // ---------------------------------------------------------------------------
  // What the formatters give a fetched context
  // ---------------------------------------------------------------------------

  /** `live_context.get(facet, default)`, formatted. */
  function PriceText(ctx: LiveContext): string { PriceContext(ctx.price.GetOr(map[])) }
  function FundamentalsText(ctx: LiveContext): string { FundamentalsContext(ctx.fundamentals.GetOr(map[])) }
  function NewsText(ctx: LiveContext): string { NewsContext(ctx.news.GetOr([])) }

  /**
   * A context fetched by the MCP client falls back to "N/A" exactly for a
   * facet whose fetch failed, and every shown price field of a fetched price
   * is the fetched value rather than "N/A".
   */
  lemma FetchedFacetsRender(symbol: string, price: Result<StockPrice, Failure>,
                            fundamentals: Result<StockFundamentals, Failure>, news: Result<seq<StockNews>, Failure>)
    ensures var ctx := FromStockContext(AssembleContext(symbol, price, fundamentals, news));
            (PriceText(ctx) == "N/A" <==> price.Err?)
            && (FundamentalsText(ctx) == "N/A" <==> fundamentals.Err?)
            && (NewsText(ctx) == NoNews <==> news.Err? || news.value == [])
            && (price.Ok? ==> PriceFields(PriceRecord(price.value))[0] == "Price: " + price.value.price)
  {
    var c := AssembleContext(symbol, price, fundamentals, news);
    if news.Ok? && news.value != [] {
      assert |c.news| > 0;
      NewsContextOfItems(c.news);
    }
  }

  /** Some news never formats as the no-news text: its first line opens with "1. ". */
  lemma NewsContextOfItems(news: seq<Record>)
    requires news != []
    ensures NewsContext(news) != NoNews
  {
    var first := NewsLines(news)[0];
    assert first == NewsLine(1, news[0]);
    assert NatToString(1) == "1";
    assert first[..3] == "1. ";
    if |NewsLines(news)| == 1 {
      assert NewsContext(news) == first;
    } else {
      assert NewsContext(news)[..3] == "1. ";
    }
    assert NoNews[..3] == "No ";
  }

  /** A record none of whose values holds `{`. */
  predicate BraceFree(r: Record) {
    forall k | k in r :: '{' !in r[k]
  }

  /** A shown field holds `{` only where the data does. */
  lemma FieldBraceFree(r: Record, key: string)
    requires BraceFree(r)
    ensures '{' !in Field(r, key, "N/A")
  {
  }

  lemma PriceFieldsBraceFree(p: Record)
    requires BraceFree(p)
    ensures forall part | part in PriceFields(p) :: '{' !in part
  {
    var ps := PriceFields(p);
    assert '{' !in ps[0] by { FieldBraceFree(p, "price"); }
    assert '{' !in ps[1] by { FieldBraceFree(p, "change"); FieldBraceFree(p, "change_pct"); }
    assert '{' !in ps[2] by { FieldBraceFree(p, "volume"); }
    assert '{' !in ps[3] by { FieldBraceFree(p, "timestamp"); }
  }

  lemma FundamentalsFieldsBraceFree(f: Record)
    requires BraceFree(f)
    ensures forall part | part in FundamentalsFields(f) :: '{' !in part
  {
    var fs := FundamentalsFields(f);
    assert '{' !in fs[0] by { FieldBraceFree(f, "market_cap"); }
    assert '{' !in fs[1] by { FieldBraceFree(f, "pe_ratio"); }
    assert '{' !in fs[2] by { FieldBraceFree(f, "eps"); }
    assert '{' !in fs[3] by { FieldBraceFree(f, "dividend_yield"); }
    assert '{' !in fs[4] by { FieldBraceFree(f, "52w_high"); }
    assert '{' !in fs[5] by { FieldBraceFree(f, "52w_low"); }
    assert '{' !in fs[6] by { FieldBraceFree(f, "sector"); }
  }

  /** The formatted facets hold `{` only where the data does. */
  lemma ContextsBraceFree(ctx: LiveContext)
    requires ctx.price.Some? ==> BraceFree(ctx.price.value)
    requires ctx.fundamentals.Some? ==> BraceFree(ctx.fundamentals.value)
    ensures '{' !in PriceText(ctx) && '{' !in FundamentalsText(ctx)
  {
    var p := ctx.price.GetOr(map[]);
    if p != map[] {
      PriceFieldsBraceFree(p);
      JoinAvoids(PriceFields(p), " | ", '{');
    }
    var f := ctx.fundamentals.GetOr(map[]);
    if f != map[] {
      FundamentalsFieldsBraceFree(f);
      JoinAvoids(FundamentalsFields(f), " | ", '{');
    }
  }
}
