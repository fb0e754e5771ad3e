/**
 * The MCP stock-data client: three facets (price, fundamentals, news) of a
 * ticker fetched over HTTP, the synchronous client that goes through the TTL
 * cache, the asynchronous client that does not, and the assembly of the
 * partial context handed to the prompt engine.
 *
 * HTTP is an oracle: a `Server` maps a URL to the parsed reply or a failure,
 * and each client keeps a ghost log of the URLs it requested.
 */
module McpClient {
  import opened Wrappers
  import opened Text
  import opened TtlCache

  const DefaultBaseUrl: string := "https://lobehub.com/mcp/girishkumardv-live-nse-bse-mcp"

  /** A JSON object whose members are kept as their text. */
  type Record = map<string, string>

  /**
   * The "news" member of a reply object: missing, something the news loop
   * goes through as objects (a list of objects; an empty string or object
   * counts as `Items([])`), or something on which the loop raises (`null`, a
   * number, a list holding a non-object, a non-empty string or object).
   */
  datatype NewsMember = Absent | Items(items: seq<Record>) | Malformed

  /**
   * A parsed reply body: a JSON object (its members and its "news" member),
   * a JSON list of objects, a JSON list holding some non-object, or a bare
   * JSON string, number, boolean or `null`.
   */
  datatype Payload = Object(fields: Record, news: NewsMember) | Array(items: seq<Record>) | MixedArray | Scalar

  /**
   * Why a fetch raised: the request failed (timeout, connection error,
   * non-2xx status, unreadable JSON), the reply was not an object where the
   * code calls `.get` on it, or the news loop could not iterate the "news"
   * member.
   */
  datatype Failure = RequestFailed | NotAnObject | MalformedNews

  /** What the remote endpoint answers for each URL at the moment of the call. */
  type Server = string -> Result<Payload, Failure>

  datatype StockPrice = StockPrice(
    symbol: string, price: string, change: string, changePct: string, volume: string, timestamp: string)

  datatype StockFundamentals = StockFundamentals(
    symbol: string, marketCap: string, peRatio: string, earningsPerShare: string, dividendYield: string,
    week52High: string, week52Low: string, sector: string, industry: string)

  datatype StockNews = StockNews(symbol: string, headline: string, source: string, link: string, publishedAt: string)

  datatype Facet = Price | Fundamentals | News

  function FacetName(f: Facet): string {
    match f
    case Price => "price"
    case Fundamentals => "fundamentals"
    case News => "news"
  }

  // ---------------------------------------------------------------------------
  // Cache keys and URLs
  // ---------------------------------------------------------------------------

  /** The cache key of a facet of a symbol: `price:TCS`, `fundamentals:TCS`, `news:TCS`. */
  function CacheKey(f: Facet, symbol: string): string {
    FacetName(f) + ":" + symbol
  }

  /** Two cache keys are equal only for the same facet of the same symbol. */
  lemma CacheKeyInjective(f: Facet, s: string, g: Facet, t: string)
    ensures CacheKey(f, s) == CacheKey(g, t) <==> f == g && s == t
  {
    if CacheKey(f, s) == CacheKey(g, t) {
      assert CacheKey(f, s)[0] == CacheKey(g, t)[0];
      assert f == g;
      var n := |FacetName(f)| + 1;
      assert CacheKey(f, s)[n..] == s;
      assert CacheKey(g, t)[n..] == t;
    }
  }

  /** Only a news key starts with "news:". */
  lemma NewsPrefixOnlyOnNewsKeys(f: Facet, s: string)
    ensures StartsWith(CacheKey(f, s), "news:") <==> f == News
  {
    if f != News {
      assert CacheKey(f, s)[0] != 'n';
    } else {
      assert CacheKey(f, s)[..5] == "news:";
    }
  }

  function StockUrl(baseUrl: string, symbol: string, f: Facet): string {
    baseUrl + "/stock/" + symbol + "/" + FacetName(f)
  }

  /** The API key in use: the one given, unless it is missing or empty, else the `MCP_API_KEY` environment value. */
  function ResolveApiKey(given: Option<string>, fromEnv: Option<string>): Option<string> {
    if given.Some? && given.value != "" then given else fromEnv
  }

  /**
   * `_headers`: always asks for JSON; sends a bearer token exactly when there
   * is a non-empty API key.
   */
  function Headers(apiKey: Option<string>): (h: map<string, string>)
    ensures h.Keys <= {"Accept", "Authorization"}
    ensures "Accept" in h && h["Accept"] == "application/json"
    ensures "Authorization" in h <==> apiKey.Some? && apiKey.value != ""
    ensures "Authorization" in h ==> h["Authorization"] == "Bearer " + apiKey.value
  {
    var h := map["Accept" := "application/json"];
    if apiKey.Some? && apiKey.value != "" then h["Authorization" := "Bearer " + apiKey.value] else h
  }

  // ---------------------------------------------------------------------------
  // Building the facet values from a reply
  // ---------------------------------------------------------------------------

  /** `data.get(key, default)`. */
  function Field(r: Record, key: string, default: string): string {
    if key in r then r[key] else default
  }

  /** The part of `fetch_stock_price` after the request. */
  function ParsePrice(symbol: string, reply: Result<Payload, Failure>): (r: Result<StockPrice, Failure>)
    ensures r.Ok? <==> reply.Ok? && reply.value.Object?
    ensures reply.Err? ==> r == Err(reply.error)
    ensures reply.Ok? && !reply.value.Object? ==> r == Err(NotAnObject)
    ensures r.Ok? ==> r.value.symbol == symbol
  {
    match reply
    case Err(e) => Err(e)
    case Ok(Object(d, _)) =>
      Ok(StockPrice(symbol, Field(d, "price", "0.0"), Field(d, "change", "0.0"), Field(d, "change_pct", "0.0"),
                    Field(d, "volume", "0"), Field(d, "timestamp", "")))
    case Ok(_) => Err(NotAnObject)
  }

  /** The part of `fetch_stock_fundamentals` after the request. */
  function ParseFundamentals(symbol: string, reply: Result<Payload, Failure>): (r: Result<StockFundamentals, Failure>)
    ensures r.Ok? <==> reply.Ok? && reply.value.Object?
    ensures reply.Err? ==> r == Err(reply.error)
    ensures reply.Ok? && !reply.value.Object? ==> r == Err(NotAnObject)
    ensures r.Ok? ==> r.value.symbol == symbol
  {
    match reply
    case Err(e) => Err(e)
    case Ok(Object(d, _)) => Ok(FundamentalsOf(symbol, d))
    case Ok(_) => Err(NotAnObject)
  }

  /** The fundamentals read from a reply object: each field or its default (`float(0)` prints as "0.0"). */
  function FundamentalsOf(symbol: string, d: Record): StockFundamentals {
    StockFundamentals(symbol, Field(d, "market_cap", "0.0"), Field(d, "pe_ratio", "0.0"),
                      Field(d, "earnings_per_share", "0.0"), Field(d, "dividend_yield", "0.0"),
                      Field(d, "week_52_high", "0.0"), Field(d, "week_52_low", "0.0"),
                      Field(d, "sector", ""), Field(d, "industry", ""))
  }

  /**
   * The items the news loop goes through: a list reply itself, else the
   * object's "news" member or `[]` when it is missing; `None` where the loop
   * raises.
   */
  function NewsItems(p: Payload): Option<seq<Record>> {
    match p
    case Array(items) => Some(items)
    case Object(_, Absent) => Some([])
    case Object(_, Items(items)) => Some(items)
    case Object(_, Malformed) => None
    case MixedArray => None
    case Scalar => None
  }

  function NewsFromRecord(symbol: string, item: Record): StockNews {
    StockNews(symbol, Field(item, "headline", ""), Field(item, "source", ""), Field(item, "link", ""),
              Field(item, "published_at", ""))
  }

  /**
   * The part of `fetch_stock_news` after the request: one `StockNews` per
   * item, in order; a bare scalar reply fails on `.get`, a malformed list or
   * "news" member fails in the loop.
   */
  function ParseNews(symbol: string, reply: Result<Payload, Failure>): (r: Result<seq<StockNews>, Failure>)
    ensures r.Ok? <==> reply.Ok? && NewsItems(reply.value).Some?
    ensures reply.Err? ==> r == Err(reply.error)
    ensures reply.Ok? && reply.value.Scalar? ==> r == Err(NotAnObject)
    ensures reply.Ok? && (reply.value.MixedArray? || (reply.value.Object? && reply.value.news.Malformed?)) ==>
            r == Err(MalformedNews)
    ensures r.Ok? ==> |r.value| == |NewsItems(reply.value).value|
    ensures r.Ok? ==> forall i | 0 <= i < |r.value| ::
      r.value[i] == NewsFromRecord(symbol, NewsItems(reply.value).value[i]) && r.value[i].symbol == symbol
  {
    match reply
    case Err(e) => Err(e)
    case Ok(p) =>
      match NewsItems(p)
      case None => if p.Scalar? then Err(NotAnObject) else Err(MalformedNews)
      case Some(items) => Ok(seq(|items|, i requires 0 <= i < |items| => NewsFromRecord(symbol, items[i])))
  }

  // ---------------------------------------------------------------------------
  // The cache as the client uses it
  // ---------------------------------------------------------------------------

  /** What the client stores: one facet value. */
  datatype CachedValue = PriceValue(price: StockPrice) | FundamentalsValue(fundamentals: StockFundamentals)
                       | NewsValue(news: seq<StockNews>)

  /** Python truthiness of a cached value: a dataclass instance is always true, a list only when non-empty. */
  predicate Truthy(v: CachedValue) {
    !v.NewsValue? || |v.news| > 0
  }

  type Store = map<string, Entry<CachedValue>>

  /** A value sits under its own facet's key for its own symbol. */
  predicate StoredUnder(key: string, v: CachedValue) {
    match v
    case PriceValue(p) => key == CacheKey(Price, p.symbol)
    case FundamentalsValue(f) => key == CacheKey(Fundamentals, f.symbol)
    case NewsValue(items) => StartsWith(key, "news:") && forall i | 0 <= i < |items| :: items[i].symbol == key[5..]
  }

  predicate WellStored(store: Store) {
    forall k | k in store :: StoredUnder(k, store[k].data)
  }

  /** The price `fetch_stock_price` serves from the cache at `now`, if any. */
  function CachedPrice(store: Store, symbol: string, now: int): Option<StockPrice> {
    match Lookup<CachedValue>(store, CacheKey(Price, symbol), now)
    case Some(PriceValue(p)) => Some(p)
    case _ => None
  }

  function CachedFundamentals(store: Store, symbol: string, now: int): Option<StockFundamentals> {
    match Lookup<CachedValue>(store, CacheKey(Fundamentals, symbol), now)
    case Some(FundamentalsValue(f)) => Some(f)
    case _ => None
  }

  /** The news `fetch_stock_news` serves from the cache: a visible, non-empty list. */
  function CachedNews(store: Store, symbol: string, now: int): Option<seq<StockNews>> {
    match Lookup<CachedValue>(store, CacheKey(News, symbol), now)
    case Some(NewsValue(items)) => if |items| > 0 then Some(items) else None
    case _ => None
  }

  /**
   * On a well-stored cache a visible entry under a facet's key is that
   * facet's value for the requested symbol, so the hit functions lose nothing.
   */
  lemma CachedValuesExact(store: Store, symbol: string, now: int)
    requires WellStored(store)
    ensures Lookup(store, CacheKey(Price, symbol), now).Some? <==> CachedPrice(store, symbol, now).Some?
    ensures CachedPrice(store, symbol, now).Some? ==> CachedPrice(store, symbol, now).value.symbol == symbol
    ensures Lookup(store, CacheKey(Fundamentals, symbol), now).Some? <==> CachedFundamentals(store, symbol, now).Some?
    ensures CachedFundamentals(store, symbol, now).Some? ==> CachedFundamentals(store, symbol, now).value.symbol == symbol
    ensures (Lookup(store, CacheKey(News, symbol), now).Some? && Truthy(Lookup(store, CacheKey(News, symbol), now).value))
            <==> CachedNews(store, symbol, now).Some?
    ensures CachedNews(store, symbol, now).Some? ==>
            forall i | 0 <= i < |CachedNews(store, symbol, now).value| :: CachedNews(store, symbol, now).value[i].symbol == symbol
  {
    var pk, fk, nk := CacheKey(Price, symbol), CacheKey(Fundamentals, symbol), CacheKey(News, symbol);
    NewsPrefixOnlyOnNewsKeys(Price, symbol);
    NewsPrefixOnlyOnNewsKeys(Fundamentals, symbol);
    if pk in store {
      match store[pk].data
      case PriceValue(p) => CacheKeyInjective(Price, symbol, Price, p.symbol);
      case FundamentalsValue(f) => CacheKeyInjective(Price, symbol, Fundamentals, f.symbol);
      case NewsValue(_) =>
    }
    if fk in store {
      match store[fk].data
      case PriceValue(p) => CacheKeyInjective(Fundamentals, symbol, Price, p.symbol);
      case FundamentalsValue(f) => CacheKeyInjective(Fundamentals, symbol, Fundamentals, f.symbol);
      case NewsValue(_) =>
    }
    if nk in store {
      assert nk[5..] == symbol;
      match store[nk].data
      case PriceValue(p) => CacheKeyInjective(News, symbol, Price, p.symbol);
      case FundamentalsValue(f) => CacheKeyInjective(News, symbol, Fundamentals, f.symbol);
      case NewsValue(_) =>
    }
  }

  /** Writing a key other than a facet's key leaves what that facet's lookup serves unchanged. */
  lemma CachedUnaffected(store: Store, key: string, e: Entry<CachedValue>, symbol: string, now: int)
    ensures key != CacheKey(Price, symbol) ==> CachedPrice(store[key := e], symbol, now) == CachedPrice(store, symbol, now)
    ensures key != CacheKey(Fundamentals, symbol) ==>
            CachedFundamentals(store[key := e], symbol, now) == CachedFundamentals(store, symbol, now)
    ensures key != CacheKey(News, symbol) ==> CachedNews(store[key := e], symbol, now) == CachedNews(store, symbol, now)
  {
    if key != CacheKey(Price, symbol) { SetIsolated(store, key, e, CacheKey(Price, symbol), now); }
    if key != CacheKey(Fundamentals, symbol) { SetIsolated(store, key, e, CacheKey(Fundamentals, symbol), now); }
    if key != CacheKey(News, symbol) { SetIsolated(store, key, e, CacheKey(News, symbol), now); }
  }

  // ---------------------------------------------------------------------------
  // What one cached fetch returns and leaves behind
  // ---------------------------------------------------------------------------

  /** The result of `fetch_stock_price`: the cached price, else the price built from the reply. */
  function PriceOutcome(store: Store, symbol: string, now: int, reply: Result<Payload, Failure>): Result<StockPrice, Failure> {
    match CachedPrice(store, symbol, now)
    case Some(p) => Ok(p)
    case None => ParsePrice(symbol, reply)
  }

  function FundamentalsOutcome(store: Store, symbol: string, now: int, reply: Result<Payload, Failure>)
    : Result<StockFundamentals, Failure>
  {
    match CachedFundamentals(store, symbol, now)
    case Some(f) => Ok(f)
    case None => ParseFundamentals(symbol, reply)
  }

  function NewsOutcome(store: Store, symbol: string, now: int, reply: Result<Payload, Failure>)
    : Result<seq<StockNews>, Failure>
  {
    match CachedNews(store, symbol, now)
    case Some(items) => Ok(items)
    case None => ParseNews(symbol, reply)
  }

  /** The store after `fetch_stock_price`: a fresh entry only after a miss whose request succeeded. */
  function AfterPriceFetch(store: Store, symbol: string, now: int, ttl: int, reply: Result<Payload, Failure>): Store {
    if CachedPrice(store, symbol, now).Some? then store
    else match ParsePrice(symbol, reply)
      case Ok(p) => store[CacheKey(Price, symbol) := Entry(PriceValue(p), now + ttl)]
      case Err(_) => store
  }

  function AfterFundamentalsFetch(store: Store, symbol: string, now: int, ttl: int, reply: Result<Payload, Failure>): Store {
    if CachedFundamentals(store, symbol, now).Some? then store
    else match ParseFundamentals(symbol, reply)
      case Ok(f) => store[CacheKey(Fundamentals, symbol) := Entry(FundamentalsValue(f), now + ttl)]
      case Err(_) => store
  }

  function AfterNewsFetch(store: Store, symbol: string, now: int, ttl: int, reply: Result<Payload, Failure>): Store {
    if CachedNews(store, symbol, now).Some? then store
    else match ParseNews(symbol, reply)
      case Ok(items) => store[CacheKey(News, symbol) := Entry(NewsValue(items), now + ttl)]
      case Err(_) => store
  }
  /** A miss whose reply parses stores the parsed price under the price key. */
  lemma PriceMissStore(store: Store, symbol: string, now: int, ttl: int, reply: Result<Payload, Failure>, p: StockPrice)
    requires CachedPrice(store, symbol, now).None? && ParsePrice(symbol, reply) == Ok(p)
    ensures AfterPriceFetch(store, symbol, now, ttl, reply) == store[CacheKey(Price, symbol) := Entry(PriceValue(p), now + ttl)]
  {
  }

  /** A miss whose reply parses stores the parsed fundamentals under the fundamentals key. */
  lemma FundamentalsMissStore(store: Store, symbol: string, now: int, ttl: int, reply: Result<Payload, Failure>,
                              f: StockFundamentals)
    requires CachedFundamentals(store, symbol, now).None? && ParseFundamentals(symbol, reply) == Ok(f)
    ensures AfterFundamentalsFetch(store, symbol, now, ttl, reply)
            == store[CacheKey(Fundamentals, symbol) := Entry(FundamentalsValue(f), now + ttl)]
  {
  }

  /** A miss whose reply parses stores the parsed items under the news key. */
  lemma NewsMissStore(store: Store, symbol: string, now: int, ttl: int, reply: Result<Payload, Failure>,
                      items: seq<StockNews>)
    requires CachedNews(store, symbol, now).None? && ParseNews(symbol, reply) == Ok(items)
    ensures AfterNewsFetch(store, symbol, now, ttl, reply) == store[CacheKey(News, symbol) := Entry(NewsValue(items), now + ttl)]
  {
  }


  /**
   * Once a price fetch at `t1` missed the cache and its request succeeded, a
   * later fetch at `t2` is served from the cache exactly while `t2 < t1 + ttl`:
   * two fetches inside the window cost one request, one after it costs another.
   */
  lemma PriceServedWithinWindow(store: Store, symbol: string, t1: int, t2: int, ttl: int, reply: Result<Payload, Failure>)
    requires CachedPrice(store, symbol, t1).None? && ParsePrice(symbol, reply).Ok? && t1 <= t2
    ensures CachedPrice(AfterPriceFetch(store, symbol, t1, ttl, reply), symbol, t2).Some? <==> t2 < t1 + ttl
    ensures t2 < t1 + ttl ==>
            PriceOutcome(AfterPriceFetch(store, symbol, t1, ttl, reply), symbol, t2, Err(RequestFailed))
            == ParsePrice(symbol, reply)
  {
    var p := ParsePrice(symbol, reply).value;
    VisibilityWindow(store, CacheKey(Price, symbol), PriceValue(p), t1, ttl, t2);
  }

  /**
   * A failed price request leaves the cache as it was, and a miss stays a miss
   * as time passes, so every later fetch requests again until one succeeds.
   */
  lemma FailedPriceFetchIsRetried(store: Store, symbol: string, t1: int, t2: int, ttl: int, reply: Result<Payload, Failure>)
    requires WellStored(store)
    requires CachedPrice(store, symbol, t1).None? && ParsePrice(symbol, reply).Err? && t1 <= t2
    ensures AfterPriceFetch(store, symbol, t1, ttl, reply) == store
    ensures CachedPrice(AfterPriceFetch(store, symbol, t1, ttl, reply), symbol, t2).None?
  {
    CachedValuesExact(store, symbol, t1);
    CachedValuesExact(store, symbol, t2);
  }

  /**
   * An empty news list is stored but, being falsy, never served: the next
   * fetch inside the window requests again.
   */
  lemma EmptyNewsIsRefetched(store: Store, symbol: string, t1: int, t2: int, ttl: int, reply: Result<Payload, Failure>)
    requires CachedNews(store, symbol, t1).None? && reply.Ok? && NewsItems(reply.value) == Some([])
    ensures CacheKey(News, symbol) in AfterNewsFetch(store, symbol, t1, ttl, reply)
    ensures CachedNews(AfterNewsFetch(store, symbol, t1, ttl, reply), symbol, t2).None?
  {
  }

  /**
   * A news fetch that raises (the request failed, the reply was a scalar, or
   * the news list was malformed) stores nothing, and a miss stays a miss
   * as time passes, so every later fetch requests again.
   */
  lemma FailedNewsFetchIsRetried(store: Store, symbol: string, t1: int, t2: int, ttl: int, reply: Result<Payload, Failure>)
    requires CachedNews(store, symbol, t1).None? && ParseNews(symbol, reply).Err? && t1 <= t2
    ensures AfterNewsFetch(store, symbol, t1, ttl, reply) == store
    ensures CachedNews(AfterNewsFetch(store, symbol, t1, ttl, reply), symbol, t2).None?
  {
  }

  // ---------------------------------------------------------------------------
  // The context dictionary
  // ---------------------------------------------------------------------------

  /** The dictionary `get_stock_context` returns; its four keys are always present. */
  datatype StockContext = StockContext(symbol: string, price: Record, fundamentals: Record, news: seq<Record>)

  function PriceRecord(p: StockPrice): Record {
    map["price" := p.price, "change" := p.change, "change_pct" := p.changePct, "volume" := p.volume,
        "timestamp" := p.timestamp]
  }

  function FundamentalsRecord(f: StockFundamentals): Record {
    map["market_cap" := f.marketCap, "pe_ratio" := f.peRatio, "eps" := f.earningsPerShare,
        "dividend_yield" := f.dividendYield, "52w_high" := f.week52High, "52w_low" := f.week52Low,
        "sector" := f.sector, "industry" := f.industry]
  }

  function NewsRecord(n: StockNews): Record {
    map["headline" := n.headline, "source" := n.source, "published_at" := n.publishedAt, "link" := n.link]
  }

  function Min(a: int, b: int): int { if a < b then a else b }

  /**
   * The context built from the three fetch outcomes (shared by both clients):
   * each facet on its own, a failed one as `{}` or `[]`, and the news as the
   * first five items at most, in their order.
   */
  function AssembleContext(symbol: string, price: Result<StockPrice, Failure>,
                           fundamentals: Result<StockFundamentals, Failure>,
                           news: Result<seq<StockNews>, Failure>): (c: StockContext)
    ensures c.symbol == symbol
    ensures c.price == map[] <==> price.Err?
    ensures price.Ok? ==> c.price == PriceRecord(price.value)
    ensures c.fundamentals == map[] <==> fundamentals.Err?
    ensures fundamentals.Ok? ==> c.fundamentals == FundamentalsRecord(fundamentals.value)
    ensures news.Err? ==> c.news == []
    ensures news.Ok? ==> |c.news| == Min(5, |news.value|)
    ensures news.Ok? ==> forall i | 0 <= i < |c.news| :: c.news[i] == NewsRecord(news.value[i])
  {
    var priceRecord := if price.Ok? then PriceRecord(price.value) else map[];
    var fundamentalsRecord := if fundamentals.Ok? then FundamentalsRecord(fundamentals.value) else map[];
    var newsRecords :=
      if news.Ok? then
        var first := news.value[..Min(5, |news.value|)];
        seq(|first|, i requires 0 <= i < |first| => NewsRecord(first[i]))
      else [];
    assert price.Ok? ==> "price" in priceRecord;
    assert fundamentals.Ok? ==> "eps" in fundamentalsRecord;
    StockContext(symbol, priceRecord, fundamentalsRecord, newsRecords)
  }

  // ---------------------------------------------------------------------------
  // The synchronous client
  // ---------------------------------------------------------------------------

  /** `SyncMCPStockClient`: every fetch goes through one shared TTL cache. */
  class SyncMcpStockClient {
    const baseUrl: string
    const apiKey: Option<string>
    const cache: SimpleCache<CachedValue>
    /** The URLs requested so far, in order. */
    ghost var requests: seq<string>

    ghost predicate Valid()
      reads this, cache
    {
      WellStored(cache.store)
    }

    constructor (baseUrl: string, apiKey: Option<string>, envApiKey: Option<string>, cacheTtl: int)
      ensures Valid() && fresh(cache)
      ensures this.baseUrl == TrimEnd(baseUrl, '/')
      ensures this.apiKey == ResolveApiKey(apiKey, envApiKey)
      ensures cache.ttl == cacheTtl && cache.store == map[] && requests == []
    {
      this.baseUrl := TrimEnd(baseUrl, '/');
      this.apiKey := ResolveApiKey(apiKey, envApiKey);
      cache := new SimpleCache(cacheTtl);
      requests := [];
    }

    function Url(symbol: string, f: Facet): string {
      StockUrl(baseUrl, symbol, f)
    }

    /**
     * The URLs a context fetch requests when its three fetches read the clock
     * as `t1`, `t2` and `t3`: one per facet the cache does not serve then.
     */
    ghost function Misses(store: Store, symbol: string, t1: int, t2: int, t3: int): seq<string> {
      (if CachedPrice(store, symbol, t1).None? then [Url(symbol, Price)] else [])
      + (if CachedFundamentals(store, symbol, t2).None? then [Url(symbol, Fundamentals)] else [])
      + (if CachedNews(store, symbol, t3).None? then [Url(symbol, News)] else [])
    }

    /**
     * `fetch_stock_price`: a cache hit is returned with no request; a miss
     * issues one request and caches the result only if it succeeded.
     */
    method FetchStockPrice(symbol: string, now: int, server: Server) returns (r: Result<StockPrice, Failure>)
      requires Valid()
      modifies this, cache
      ensures Valid()
      ensures r == PriceOutcome(old(cache.store), symbol, now, server(Url(symbol, Price)))
      ensures r.Ok? ==> r.value.symbol == symbol
      ensures cache.store == AfterPriceFetch(old(cache.store), symbol, now, cache.ttl, server(Url(symbol, Price)))
      ensures requests == old(requests) + (if CachedPrice(old(cache.store), symbol, now).Some? then []
                                            else [Url(symbol, Price)])
    {
      var key := CacheKey(Price, symbol);
      CachedValuesExact(cache.store, symbol, now);
      var cached := cache.Get(key, now);
      if cached.Some? && Truthy(cached.value) {
        match cached.value
        case PriceValue(p) =>
          assert CachedPrice(cache.store, symbol, now) == Some(p);
          return Ok(p);
        case FundamentalsValue(f) =>
          assert false;
        case NewsValue(_) =>
          assert false;
      }
      assert CachedPrice(cache.store, symbol, now).None?;
      var url := Url(symbol, Price);
      requests := requests + [url];
      ghost var store0 := cache.store;
      r := ParsePrice(symbol, server(url));
      if r.Ok? {
        cache.Set(key, PriceValue(r.value), now);
        PriceMissStore(store0, symbol, now, cache.ttl, server(url), r.value);
      }
    }

    /** `fetch_stock_fundamentals`, with the same cache discipline. */
    method FetchStockFundamentals(symbol: string, now: int, server: Server)
      returns (r: Result<StockFundamentals, Failure>)
      requires Valid()
      modifies this, cache
      ensures Valid()
      ensures r == FundamentalsOutcome(old(cache.store), symbol, now, server(Url(symbol, Fundamentals)))
      ensures r.Ok? ==> r.value.symbol == symbol
      ensures cache.store == AfterFundamentalsFetch(old(cache.store), symbol, now, cache.ttl,
                                                    server(Url(symbol, Fundamentals)))
      ensures requests == old(requests) + (if CachedFundamentals(old(cache.store), symbol, now).Some? then []
                                            else [Url(symbol, Fundamentals)])
    {
      var key := CacheKey(Fundamentals, symbol);
      CachedValuesExact(cache.store, symbol, now);
      var cached := cache.Get(key, now);
      if cached.Some? && Truthy(cached.value) {
        match cached.value
        case FundamentalsValue(f) =>
          assert CachedFundamentals(cache.store, symbol, now) == Some(f);
          assert AfterFundamentalsFetch(cache.store, symbol, now, cache.ttl, server(Url(symbol, Fundamentals))) == cache.store;
          assert cache.store == AfterFundamentalsFetch(old(cache.store), symbol, now, cache.ttl, server(Url(symbol, Fundamentals)));
          return Ok(f);
        case PriceValue(_) =>
          assert false;
        case NewsValue(_) =>
          assert false;
      }
      assert CachedFundamentals(cache.store, symbol, now).None?;
      var url := Url(symbol, Fundamentals);
      requests := requests + [url];
      ghost var store0 := cache.store;
      r := ParseFundamentals(symbol, server(url));
      if r.Ok? {
        cache.Set(key, FundamentalsValue(r.value), now);
        FundamentalsMissStore(store0, symbol, now, cache.ttl, server(url), r.value);
        assert cache.store == AfterFundamentalsFetch(old(cache.store), symbol, now, cache.ttl, server(Url(symbol, Fundamentals)));
      } else {
        assert AfterFundamentalsFetch(store0, symbol, now, cache.ttl, server(url)) == store0;
        assert cache.store == AfterFundamentalsFetch(old(cache.store), symbol, now, cache.ttl, server(Url(symbol, Fundamentals)));
      }
    }

    /**
     * `fetch_stock_news`: as the other two, except that a cached empty list
     * is falsy and therefore counts as a miss.
     */
    method FetchStockNews(symbol: string, now: int, server: Server) returns (r: Result<seq<StockNews>, Failure>)
      requires Valid()
      modifies this, cache
      ensures Valid()
      ensures r == NewsOutcome(old(cache.store), symbol, now, server(Url(symbol, News)))
      ensures r.Ok? ==> forall i | 0 <= i < |r.value| :: r.value[i].symbol == symbol
      ensures cache.store == AfterNewsFetch(old(cache.store), symbol, now, cache.ttl, server(Url(symbol, News)))
      ensures requests == old(requests) + (if CachedNews(old(cache.store), symbol, now).Some? then []
                                            else [Url(symbol, News)])
    {
      var key := CacheKey(News, symbol);
      CachedValuesExact(cache.store, symbol, now);
      var cached := cache.Get(key, now);
      if cached.Some? && Truthy(cached.value) {
        match cached.value
        case NewsValue(items) =>
          assert CachedNews(cache.store, symbol, now) == Some(items);
          return Ok(items);
        case PriceValue(_) =>
          assert false;
        case FundamentalsValue(_) =>
          assert false;
      }
      assert CachedNews(cache.store, symbol, now).None?;
      var url := Url(symbol, News);
      requests := requests + [url];
      ghost var store0 := cache.store;
      r := ParseNews(symbol, server(url));
      if r.Ok? {
        assert key[5..] == symbol;
        cache.Set(key, NewsValue(r.value), now);
        NewsMissStore(store0, symbol, now, cache.ttl, server(url), r.value);
      }
    }

    /**
     * `get_stock_context`: the three facets one after another, each failure
     * caught and turned into an empty facet. Since the three keys differ, each
     * facet sees the cache as it was before the call.
     */
    method GetStockContext(symbol: string, t1: int, t2: int, t3: int, server: Server) returns (ctx: StockContext)
      requires Valid()
      modifies this, cache
      ensures Valid()
      ensures ctx == AssembleContext(symbol,
                                     PriceOutcome(old(cache.store), symbol, t1, server(Url(symbol, Price))),
                                     FundamentalsOutcome(old(cache.store), symbol, t2, server(Url(symbol, Fundamentals))),
                                     NewsOutcome(old(cache.store), symbol, t3, server(Url(symbol, News))))
      ensures cache.store == AfterNewsFetch(
                               AfterFundamentalsFetch(
                                 AfterPriceFetch(old(cache.store), symbol, t1, cache.ttl, server(Url(symbol, Price))),
                                 symbol, t2, cache.ttl, server(Url(symbol, Fundamentals))),
                               symbol, t3, cache.ttl, server(Url(symbol, News)))
      ensures requests == old(requests) + Misses(old(cache.store), symbol, t1, t2, t3)
    {
      ghost var store0 := cache.store;
      var price := FetchStockPrice(symbol, t1, server);
      ghost var store1 := cache.store;
      assert CachedFundamentals(store1, symbol, t2) == CachedFundamentals(store0, symbol, t2) by {
        if store1 != store0 {
          CacheKeyInjective(Price, symbol, Fundamentals, symbol);
          CachedUnaffected(store0, CacheKey(Price, symbol), store1[CacheKey(Price, symbol)], symbol, t2);
        }
      }
      assert CachedNews(store1, symbol, t3) == CachedNews(store0, symbol, t3) by {
        if store1 != store0 {
          CacheKeyInjective(Price, symbol, News, symbol);
          CachedUnaffected(store0, CacheKey(Price, symbol), store1[CacheKey(Price, symbol)], symbol, t3);
        }
      }
      var fundamentals := FetchStockFundamentals(symbol, t2, server);
      ghost var store2 := cache.store;
      assert CachedNews(store2, symbol, t3) == CachedNews(store1, symbol, t3) by {
        if store2 != store1 {
          CacheKeyInjective(Fundamentals, symbol, News, symbol);
          CachedUnaffected(store1, CacheKey(Fundamentals, symbol), store2[CacheKey(Fundamentals, symbol)], symbol, t3);
        }
      }
      var news := FetchStockNews(symbol, t3, server);
      ctx := AssembleContext(symbol, price, fundamentals, news);
      AppendThree(old(requests),
                  if CachedPrice(store0, symbol, t1).Some? then [] else [Url(symbol, Price)],
                  if CachedFundamentals(store0, symbol, t2).Some? then [] else [Url(symbol, Fundamentals)],
                  if CachedNews(store0, symbol, t3).Some? then [] else [Url(symbol, News)]);
    }
  }

  lemma AppendThree(s: seq<string>, a: seq<string>, b: seq<string>, c: seq<string>)
    ensures s + a + b + c == s + (a + b + c)
  {
  }

  // ---------------------------------------------------------------------------
  // The asynchronous client
  // ---------------------------------------------------------------------------

  /**
   * `AsyncMCPStockClient`: it creates a cache of its own but never reads or
   * writes it; every fetch is a request.
   */
  class AsyncMcpStockClient {
    const baseUrl: string
    const apiKey: Option<string>
    const cache: SimpleCache<CachedValue>
    ghost var requests: seq<string>

    constructor (baseUrl: string, apiKey: Option<string>, envApiKey: Option<string>, cacheTtl: int)
      ensures fresh(cache)
      ensures this.baseUrl == TrimEnd(baseUrl, '/')
      ensures this.apiKey == ResolveApiKey(apiKey, envApiKey)
      ensures cache.ttl == cacheTtl && cache.store == map[] && requests == []
    {
      this.baseUrl := TrimEnd(baseUrl, '/');
      this.apiKey := ResolveApiKey(apiKey, envApiKey);
      cache := new SimpleCache(cacheTtl);
      requests := [];
    }

    function Url(symbol: string, f: Facet): string {
      StockUrl(baseUrl, symbol, f)
    }

    method FetchStockPrice(symbol: string, server: Server) returns (r: Result<StockPrice, Failure>)
      modifies this
      ensures r == ParsePrice(symbol, server(Url(symbol, Price)))
      ensures requests == old(requests) + [Url(symbol, Price)]
    {
      requests := requests + [Url(symbol, Price)];
      r := ParsePrice(symbol, server(Url(symbol, Price)));
    }

    method FetchStockFundamentals(symbol: string, server: Server) returns (r: Result<StockFundamentals, Failure>)
      modifies this
      ensures r == ParseFundamentals(symbol, server(Url(symbol, Fundamentals)))
      ensures requests == old(requests) + [Url(symbol, Fundamentals)]
    {
      requests := requests + [Url(symbol, Fundamentals)];
      r := ParseFundamentals(symbol, server(Url(symbol, Fundamentals)));
    }

    method FetchStockNews(symbol: string, server: Server) returns (r: Result<seq<StockNews>, Failure>)
      modifies this
      ensures r == ParseNews(symbol, server(Url(symbol, News)))
      ensures requests == old(requests) + [Url(symbol, News)]
    {
      requests := requests + [Url(symbol, News)];
      r := ParseNews(symbol, server(Url(symbol, News)));
    }

    /**
     * `get_stock_context`: the three requests always go out (gathered, here
     * in creation order), and the outcomes are assembled as in the sync client.
     */
    method GetStockContext(symbol: string, server: Server) returns (ctx: StockContext)
      modifies this
      ensures ctx == AssembleContext(symbol, ParsePrice(symbol, server(Url(symbol, Price))),
                                     ParseFundamentals(symbol, server(Url(symbol, Fundamentals))),
                                     ParseNews(symbol, server(Url(symbol, News))))
      ensures requests == old(requests) + [Url(symbol, Price), Url(symbol, Fundamentals), Url(symbol, News)]
      ensures cache.store == old(cache.store)
    {
      var price := FetchStockPrice(symbol, server);
      var fundamentals := FetchStockFundamentals(symbol, server);
      var news := FetchStockNews(symbol, server);
      ctx := AssembleContext(symbol, price, fundamentals, news);
    }
  }

  /**
   * On a cache that serves nothing for the symbol the two clients build the
   * same context from the same replies; with a warm cache only the sync
   * client can avoid the requests.
   */
  lemma ColdCacheClientsAgree(store: Store, symbol: string, t1: int, t2: int, t3: int, price: Result<Payload, Failure>,
                              fundamentals: Result<Payload, Failure>, news: Result<Payload, Failure>)
    requires CachedPrice(store, symbol, t1).None? && CachedFundamentals(store, symbol, t2).None?
    requires CachedNews(store, symbol, t3).None?
    ensures AssembleContext(symbol, PriceOutcome(store, symbol, t1, price),
                            FundamentalsOutcome(store, symbol, t2, fundamentals), NewsOutcome(store, symbol, t3, news))
            == AssembleContext(symbol, ParsePrice(symbol, price), ParseFundamentals(symbol, fundamentals),
                               ParseNews(symbol, news))
  {
  }
}
