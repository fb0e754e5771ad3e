# Stock analyst agent: a Dafny model

This project models the core of a stock-analysis agent for Indian equities (NSE/BSE). The agent has two halves.

- **The MCP stock-data client** (`mcp_client.py`). It fetches a symbol's price, fundamentals and news from a market-data server. The synchronous client keeps an in-memory TTL cache (`_SimpleCache`): a hit is served without a request, and only a successful reply is stored. `get_stock_context` gathers the three facets into one context dictionary; a failed facet becomes `{}` or `[]`. The asynchronous client builds the same context without ever reading its cache.
- **The analyst** (`stock_analyst_agent.py`). It holds a registry of sixteen prompt templates with the placeholders `[STOCK NAME]`, `{price_context}`, `{fundamentals_context}` and `{news_context}`. `build_prompt` fills a template with the upper-cased stock name and the formatted context. `analyze_stock` sends each selected prompt to a model back end (mock, Ollama or Gemini) and collects the answers per prompt id. It then builds a one-paragraph summary; `to_markdown` renders the last analysis as a report.

Modules:

- `wrappers.dfy` (`Wrappers`): `Option` and `Result`.
- `text.dfy` (`Text`): the Python string operations the core uses (`strip`, `upper`, `title`, `split`, `splitlines`, `join`, `replace`, `rstrip`, slicing, `str(int)`) with their laws.
- `ttl_cache.dfy` (`TtlCache`): `_CacheEntry` and the class `SimpleCache`.
- `mcp_client.dfy` (`McpClient`): payload parsing, cache keys, headers, the classes `SyncMcpStockClient` and `AsyncMcpStockClient`, and the context assembly.
- `context_format.dfy` (`ContextFormat`): the three context formatters.
- `prompts.dfy` (`Prompts`): the template registry and the placeholder replace chain.
- `model_clients.dfy` (`ModelClients`): the back-end factory, the mock reply and the remote replies.
- `agent.dfy` (`Agent`): the run of `analyze_stock` as a value, the summary, the report, and the class `StockAnalystAgent`.

How the outside world appears in the model:

- The clock (`time.monotonic()`) becomes an integer argument. A fetch takes one reading `now`; the sync client's `get_stock_context` takes three, `t1`, `t2` and `t3`, one per fetch.
- The HTTP GET of the MCP client becomes a function `server` from URL to `Ok(payload)` or `Err(failure)`. A ghost `requests` field records the URLs asked for, in order.
- A model back end's HTTP POST becomes a function `remote` from request to reply. A ghost `modelCalls` field records the prompts handed to the model.
- `datetime.now()` becomes a `timestamp` argument.
- Payload values are opaque strings, not numbers. A reply body is a JSON object, a list of objects, a list holding some non-object, or a bare scalar.
- The two halves meet in `ContextFormat.FromStockContext`, which turns the client's context into the analyst's `live_context`.

Where the code and its design notes differ, the model follows the code:

- Unknown prompt ids are skipped with a warning; the run does not fail.
- The asynchronous client creates a cache but never consults it. Every context fetch sends three requests.
- `to_markdown` prints "No results available." only before the first analysis. A run whose results are empty still gets a full report.
- Transport failures of Ollama and Gemini come back as "[ERROR] ..." text rather than as exceptions.
- A reply body that is not a JSON object, and a Gemini first candidate whose `content` or `parts` is `null` or whose `parts` list is empty, raise in `complete` (`AttributeError`, `TypeError`, `IndexError`). They are modelled as `Err`. That error ends `analyze_stock`: the stock name is already upper-cased, but the previous results stay.
- A news reply the loop cannot go through (a scalar, a `null` or numeric `news` member, a non-object item) raises in `fetch_stock_news`, and nothing is cached.

## Model

| member | source | states |
|---|---|---|
| TtlCache.Lookup | mcp_client.py:87-91 | definition: what `get` answers on a store at `now`: the entry's data while `now` is strictly before its expiry, else nothing |
| TtlCache.SimpleCache.Get | mcp_client.py:87-91 | the stored value exactly when the key has an entry and `now` is strictly before its expiry, else none; the store is not changed, so expired entries stay |
| TtlCache.SimpleCache.Set | mcp_client.py:93-97 | the key's entry becomes the value expiring `ttl` after `now`; the rest of the map is as before |
| TtlCache.VisibilityWindow | mcp_client.py:87-97 | an entry written at `t` is read back at every `now` in `[t, t + ttl)` and at no later one |
| TtlCache.SetIsolated | mcp_client.py:93-97 | writing one key never changes what a read of another key returns |
| McpClient.CacheKeyInjective | mcp_client.py:168-211 | the keys `price:s`, `fundamentals:s` and `news:s` are equal only for the same facet and the same symbol |
| McpClient.NewsPrefixOnlyOnNewsKeys | mcp_client.py:211 | only a news key starts with `news:` |
| McpClient.ResolveApiKey | mcp_client.py:135 | definition: the given API key unless it is missing or empty, else the `MCP_API_KEY` environment value |
| McpClient.Headers | mcp_client.py:141-145 | always `Accept: application/json`; `Authorization: Bearer <key>` exactly when the key is present and non-empty; nothing else |
| McpClient.ParsePrice | mcp_client.py:174-182 | a price exactly when the request succeeded with an object reply, always for the requested symbol; a failed request keeps its error, any other reply is `NotAnObject` |
| McpClient.ParseFundamentals | mcp_client.py:194-205 | fundamentals exactly when the request succeeded with an object reply, for the requested symbol; a failed request keeps its error, any other reply is `NotAnObject` |
| McpClient.FundamentalsOf | mcp_client.py:195-205 | definition: each field of the reply object or its default, "0.0" for the six numbers and "" for sector and industry |
| McpClient.NewsItems | mcp_client.py:217-219 | definition: the items the news loop goes through: a list reply itself, an object's `news` member, `[]` when that is missing; nothing where the loop raises |
| McpClient.ParseNews | mcp_client.py:216-229 | items exactly when the request succeeded and the loop can go through the items, one per entry in order, each for the symbol; a failed request keeps its error, a scalar reply is `NotAnObject`, a list or `news` member holding a non-object, or a `news` member that is `null` or a number, is `MalformedNews` |
| McpClient.CachedPrice | mcp_client.py:168-172 | definition: the price a fetch at `now` serves from the cache: a visible entry under `price:<symbol>` holding a price |
| McpClient.CachedFundamentals | mcp_client.py:188-192 | definition: the same on `fundamentals:<symbol>` |
| McpClient.CachedNews | mcp_client.py:211-215 | definition: the same on `news:<symbol>`, and only a non-empty list, since an empty one is falsy |
| McpClient.PriceOutcome | mcp_client.py:166-184 | definition: what `fetch_stock_price` returns or raises: the cached price, else the parsed reply |
| McpClient.FundamentalsOutcome | mcp_client.py:186-207 | definition: the same for `fetch_stock_fundamentals` |
| McpClient.NewsOutcome | mcp_client.py:209-231 | definition: the same for `fetch_stock_news` |
| McpClient.AfterPriceFetch | mcp_client.py:166-184 | definition: the store after `fetch_stock_price`: unchanged on a hit or when the fetch raised, else the parsed price under the price key, expiring `ttl` after `now` |
| McpClient.AfterFundamentalsFetch | mcp_client.py:186-207 | definition: the same for `fetch_stock_fundamentals` |
| McpClient.AfterNewsFetch | mcp_client.py:209-231 | definition: the same for `fetch_stock_news`, storing the parsed list even when it is empty |
| McpClient.CachedValuesExact | mcp_client.py:169-215 | on a well-stored cache a visible entry under a facet's key is a value of that facet for that symbol; news counts only when non-empty |
| McpClient.CachedUnaffected | mcp_client.py:183-230 | storing under one key leaves what every other facet's key serves unchanged |
| McpClient.PriceServedWithinWindow | mcp_client.py:169-184 | after a successful price fetch at `t1`, a fetch at `t2 >= t1` is served from the cache exactly when `t2 < t1 + ttl`, and is the fetched price |
| McpClient.FailedPriceFetchIsRetried | mcp_client.py:174-184 | a failed price fetch leaves the cache as it was, so the next fetch misses again |
| McpClient.EmptyNewsIsRefetched | mcp_client.py:212-230 | an empty news list is stored but is falsy, so the next fetch still misses |
| McpClient.FailedNewsFetchIsRetried | mcp_client.py:209-231 | a news fetch that raises (failed request, scalar reply, malformed list) leaves the cache as it was, and a later fetch misses again |
| McpClient.AssembleContext | mcp_client.py:239-285 | the context has the symbol and all three facets; a facet is empty exactly when its fetch failed, else the fetched fields; news is the first five items at most, in order |
| McpClient.SyncMcpStockClient.constructor | mcp_client.py:122-135 | trailing slashes trimmed from the base URL, the API key given or else the environment's, an empty cache with the given TTL |
| McpClient.SyncMcpStockClient.FetchStockPrice | mcp_client.py:166-184 | a cached truthy price is returned with no request; otherwise exactly one request, whose parsed price is stored expiring `ttl` after `now`, and a failure leaves the cache unchanged; the cache stays well stored |
| McpClient.SyncMcpStockClient.FetchStockFundamentals | mcp_client.py:186-207 | as for the price, on the fundamentals key |
| McpClient.SyncMcpStockClient.FetchStockNews | mcp_client.py:209-231 | as for the price, on the news key; a cached empty list is a miss |
| McpClient.SyncMcpStockClient.Misses | mcp_client.py:233-285 | definition: one URL per facet the cache does not serve at that facet's clock reading, in fetch order |
| McpClient.SyncMcpStockClient.GetStockContext | mcp_client.py:233-285 | the context assembled from the three fetch outcomes, price at `t1`, fundamentals at `t2`, news at `t3`, each against the cache as it was before the call; the cache after the three fetches in order; one request per facet the cache did not serve at its reading |
| McpClient.AsyncMcpStockClient.constructor | mcp_client.py:300-316 | as for the sync client: trimmed base URL, resolved API key, an empty cache |
| McpClient.AsyncMcpStockClient.FetchStockPrice | mcp_client.py:333-343 | always one request; the parsed reply |
| McpClient.AsyncMcpStockClient.FetchStockFundamentals | mcp_client.py:345-358 | always one request; the parsed reply |
| McpClient.AsyncMcpStockClient.FetchStockNews | mcp_client.py:360-374 | always one request; the parsed reply |
| McpClient.AsyncMcpStockClient.GetStockContext | mcp_client.py:376-429 | the same assembly as the sync client from the three replies; always three requests; the cache untouched |
| McpClient.ColdCacheClientsAgree | mcp_client.py:376-429 | on a cache that serves none of the facets at the sync client's three readings, both clients build the same context from the same replies |
| ContextFormat.FromStockContext | stock_analyst_agent.py:364-368 | definition: the context dictionary handed over as `live_context`: all three facets present |
| ContextFormat.PriceContext | stock_analyst_agent.py:285-293 | "N/A" exactly for an empty price dictionary, else the five fields joined by " \| " |
| ContextFormat.FundamentalsContext | stock_analyst_agent.py:296-307 | "N/A" exactly for empty fundamentals, else the seven fields joined by " \| " |
| ContextFormat.OnlyShownKeysMatter | stock_analyst_agent.py:285-307 | a key the formatters do not show never changes their text |
| ContextFormat.NewsLines | stock_analyst_agent.py:313-318 | at most five lines, line i built from item i and numbered i + 1 |
| ContextFormat.NewsContext | stock_analyst_agent.py:310-319 | definition: the no-news text for an empty list, else the numbered lines of the first five items joined by line breaks |
| ContextFormat.FormatNewsContext | stock_analyst_agent.py:310-319 | the loop builds the reference news text |
| ContextFormat.NewsContextLines | stock_analyst_agent.py:313-319 | for single-line items, splitting the text at newlines gives back the lines: at most five, numbered 1, 2, ... in input order |
| ContextFormat.NewsContextOfItems | stock_analyst_agent.py:311-312 | some news never formats as "No recent news available." |
| ContextFormat.FetchedFacetsRender | stock_analyst_agent.py:285-312 | on a fetched context, "N/A" exactly for a failed price or fundamentals fetch and the no-news text exactly for failed or empty news |
| ContextFormat.ContextsBraceFree | stock_analyst_agent.py:285-307 | price and fundamentals built from values without `{` contain no `{` |
| Prompts.MarkersApart | stock_analyst_agent.py:370-375 | two different markers differ in their second character, and neither contains the other's opening bracket past its first |
| Prompts.FillTemplate | stock_analyst_agent.py:370-375 | definition: the four `str.replace` calls in source order: stock name, price context, fundamentals context, news context |
| Prompts.FillTemplateInstantiates | stock_analyst_agent.py:370-375 | for a template whose text holds no `[` or `{`, the replace chain equals substituting each placeholder's value, when the name, price and fundamentals text hold no `{` |
| Prompts.NoMarkerLeft | stock_analyst_agent.py:370-375 | no marker is left in the filled prompt when no value contains that marker's opening bracket |
| Prompts.InstantiateAvoids | stock_analyst_agent.py:370-375 | a character absent from the template's text and from every value is absent from the result |
| Prompts.IdsOf | stock_analyst_agent.py:26 | the registry's ids in registry order |
| Prompts.Find | stock_analyst_agent.py:363 | a template exactly for a registered id, and it is that id's template |
| Prompts.PromptIdsDistinct | stock_analyst_agent.py:26-141 | sixteen ids, pairwise distinct |
| Prompts.RegistryIds | stock_analyst_agent.py:26-141 | the registry's ids are "1_market_mindset" to "16_conviction_rating" in order |
| Prompts.RegistryNamesStock | stock_analyst_agent.py:26-141 | every template names the stock |
| ModelClients.Setting | stock_analyst_agent.py:264-273 | definition: a configuration attribute when present and non-empty, else the environment variable when set, else the default |
| ModelClients.BuildModelClient | stock_analyst_agent.py:249-277 | a back end exactly for "mock", "ollama" and "gemini", of that kind; otherwise the `ValueError` message; an Ollama URL has no trailing slash |
| ModelClients.FactoryDefaults | stock_analyst_agent.py:261-275 | without configuration: Ollama at `http://localhost:11434` with `llama3`, Gemini `gemini-1.5-flash` with an empty key, the mock |
| ModelClients.FirstDataLineIndexFirst | stock_analyst_agent.py:160-163 | the mock quotes the first line that is not blank and does not name the stock placeholder |
| ModelClients.MockComplete | stock_analyst_agent.py:159-167 | definition: the mock reply: the prompt's length and at most 80 characters of its first data line, or "N/A" |
| ModelClients.MockFirstPiece | stock_analyst_agent.py:159-167 | the mock reply is a head without a full stop, a full stop, then the quoted line; the prompt's length reads back from the head |
| ModelClients.RequestFor | stock_analyst_agent.py:189-231 | no request for the mock; a remote back end's request carries the prompt |
| ModelClients.GeminiText | stock_analyst_agent.py:235-243 | raises exactly when there is a first candidate whose content is `null`, or whose part list is `null` or empty; otherwise the first part's text, empty when a member is missing |
| ModelClients.Complete | stock_analyst_agent.py:159-246 | the mock never raises; Ollama raises exactly when its reply body is not a JSON object; Gemini raises exactly on a non-object body or a malformed first candidate; a failed request never raises |
| ModelClients.TransportFailureIsText | stock_analyst_agent.py:189-246 | a failed request to Ollama or Gemini comes back as text starting with "[ERROR] " |
| Agent.ResolveIds | stock_analyst_agent.py:407 | definition: the selection when non-empty, else every registry id in order |
| Agent.DefaultRunsAll | stock_analyst_agent.py:407 | no selection or an empty one runs every registry id in order; a non-empty selection is used as given |
| Agent.ContextFillers | stock_analyst_agent.py:364-368 | definition: the upper-cased name and the three formatted facets of the live context, an absent facet formatted as an empty one |
| Agent.BuildPrompt | stock_analyst_agent.py:359-376 | a prompt exactly for a registered id |
| Agent.BuildPromptSubstitutes | stock_analyst_agent.py:359-376 | with brace-free data, the prompt is the template with each placeholder replaced by the name or the formatted context |
| Agent.Put | stock_analyst_agent.py:417 | storing under an id keeps the key order and appends a new id at the end; the entry is present and nothing else is added |
| Agent.RunStep | stock_analyst_agent.py:410-417 | definition: one loop turn: an unknown id is skipped, a known one is filled and sent and its entry stored; a raised call ends the run |
| Agent.RunPrompts | stock_analyst_agent.py:409-417 | definition: the loop over the ids, turn after turn from an empty dictionary |
| Agent.Sent | stock_analyst_agent.py:414-416 | definition: the prompts handed to the model during the run, in order |
| Agent.StepIds | stock_analyst_agent.py:410-417 | a turn that completes appends a registered id not stored yet and otherwise leaves the stored ids as they were |
| Agent.RunStopsAtError | stock_analyst_agent.py:410-417 | once a model call raises, later ids change nothing and are not sent |
| Agent.FirstOccurrencesShape | stock_analyst_agent.py:417 | the first occurrences hold the same ids, each once |
| Agent.Known | stock_analyst_agent.py:410-413 | the requested ids the registry has, in request order, repeats kept; never more than requested |
| Agent.KnownAreRegistered | stock_analyst_agent.py:410-413 | an id is known exactly when it is requested and in the registry |
| Agent.SentCountsKnown | stock_analyst_agent.py:410-417 | a completed run calls the model once per occurrence of a known id |
| Agent.RunCoversKnownIds | stock_analyst_agent.py:410-417 | the results' ids are the known requested ids in first-occurrence order |
| Agent.RunCompletes | stock_analyst_agent.py:410-417 | with the mock, or with Ollama while every reply body is a JSON object, the run never raises |
| Agent.FullRun | stock_analyst_agent.py:407-417 | a default run over distinct ids answers every registry id in order, one model call each |
| Agent.MockRunAnswers | stock_analyst_agent.py:410-417 | with the mock every entry's response is the mock reply to its prompt |
| Agent.FullMockRun | stock_analyst_agent.py:407-417 | a default mock run answers the sixteen prompts in registry order with sixteen model calls |
| Agent.FirstSentence | stock_analyst_agent.py:436-437 | definition: the stripped text before a response's first full stop, empty for an empty response |
| Agent.Highlight | stock_analyst_agent.py:439 | definition: the bracketed id, a space, the first sentence and a full stop |
| Agent.Highlights | stock_analyst_agent.py:434-439 | at most one highlight per entry: one for each entry with a non-empty first sentence, in entry order |
| Agent.HighlightsBracketed | stock_analyst_agent.py:436-439 | every highlight starts with `[` |
| Agent.HighlightsEmpty | stock_analyst_agent.py:436-439 | no highlight exactly when no response has a non-blank first sentence |
| Agent.Summary | stock_analyst_agent.py:430-440 | "No prompts were executed." exactly for no results; any other text than "Analysis complete." starts with a highlight |
| Agent.SummaryComplete | stock_analyst_agent.py:436-440 | "Analysis complete." when there are results but no highlight |
| Agent.BuildSummary | stock_analyst_agent.py:430-440 | the loop builds the reference summary |
| Agent.MockFirstSentence | stock_analyst_agent.py:164-167 | the first sentence of a mock reply is its head |
| Agent.HighlightsAll | stock_analyst_agent.py:436-439 | when every response has a first sentence, there is one highlight per result, in order |
| Agent.MockHighlights | stock_analyst_agent.py:430-440 | after a mock run, highlight i is "[id] " followed by the mock's head and a full stop |
| Agent.SectionTitle | stock_analyst_agent.py:472 | definition: the id with underscores as spaces, title-cased |
| Agent.HeaderLines | stock_analyst_agent.py:454-469 | fourteen lines: title with the stock name, timestamp, model, number of ids run, the summary, separators |
| Agent.SectionLines | stock_analyst_agent.py:471-486 | fourteen lines: the section title, the prompt in a code fence, the response, a separator |
| Agent.Sections | stock_analyst_agent.py:470-486 | definition: the section lines of every result, in result order |
| Agent.ReportLines | stock_analyst_agent.py:454-486 | definition: the header lines followed by the sections |
| Agent.Markdown | stock_analyst_agent.py:450-487 | definition: the no-results text before any analysis, else the report lines joined by line breaks |
| Agent.SectionTitleShape | stock_analyst_agent.py:472 | a section title has the id's length, a space for each underscore, the digits kept, and no underscore left |
| Agent.SectionsShape | stock_analyst_agent.py:470-486 | fourteen lines per result in order, holding its heading, prompt and response at fixed offsets |
| Agent.ReportShape | stock_analyst_agent.py:450-487 | fourteen header lines, the "Prompts run" line reading back the number of resolved ids, the summary, then the sections |
| Agent.StockAnalystAgent.constructor | stock_analyst_agent.py:343-354 | the model type and back end given, the module's registry, an empty name, no results |
| Agent.StockAnalystAgent.AnalyzeStock | stock_analyst_agent.py:382-428 | upper-cases the name; the run of the resolved ids; on success the result with the resolved ids, the entries and their summary becomes the agent's results; on an exception the old results stay; the model calls are those of the run |
| Agent.StockAnalystAgent.RunLoop | stock_analyst_agent.py:410-417 | the loop equals the reference run and sends its prompts in order |
| Agent.StockAnalystAgent.Turn | stock_analyst_agent.py:414-417 | one iteration: fill the prompt, call the model once, store the entry |
| Agent.StockAnalystAgent.ToMarkdown | stock_analyst_agent.py:450-487 | the reference report of the last analysis, or the no-results text before one |
| Agent.NewAgent | stock_analyst_agent.py:343-354 | a given client is used as is; otherwise the factory's back end; an unknown model type is the factory's error; the new agent has no results |
| Text.StripShape | stock_analyst_agent.py:437 | `strip` is empty exactly for a blank text, else it begins and ends with a non-space |
| Text.UpperIdempotent | stock_analyst_agent.py:406 | upper-casing twice is upper-casing once; no lower-case ASCII letter is left |
| Text.Title | stock_analyst_agent.py:472 | letters after a letter are lower-cased, other letters upper-cased, other characters kept |
| Text.NatToStringRoundTrip | stock_analyst_agent.py:459 | the decimal text of a count reads back as the count |
| Text.SplitPiecesAvoid | stock_analyst_agent.py:437 | no piece of a split holds the separator |
| Text.JoinSplit | stock_analyst_agent.py:437 | joining the pieces of a split with the separator gives back the text |
| Text.SplitJoin | stock_analyst_agent.py:319 | splitting a join of separator-free parts gives back the parts |
| Text.LinesUnbroken | stock_analyst_agent.py:161 | no line of `splitlines` holds a line break |
| Text.ReplaceAllAbsent | stock_analyst_agent.py:370-375 | a replace whose pattern's first character does not occur changes nothing |
| Text.ReplaceAllSkips | stock_analyst_agent.py:370-375 | text free of the pattern's first character passes through a replace unchanged |
| Text.ReplaceAllAtFront | stock_analyst_agent.py:370-375 | a pattern at the front is replaced and the replace continues after it |
| Text.ReplaceChar | stock_analyst_agent.py:472 | replacing one character by another changes exactly its occurrences |
| Text.TrimEnd | mcp_client.py:129 | the longest prefix not ending in the character; only that character was removed |
| Text.Take | stock_analyst_agent.py:166 | the first `n` characters, or all when fewer |

## Left out

- HTTP transport, JSON decoding, timeouts and `raise_for_status` are not modelled. Replies are an abstract function of the URL or the request.
- The concurrency of `asyncio.gather` is left out. The async client's three requests are recorded in creation order.
- `float()`, `int()` and `str()` on payload values are left out. Values are opaque strings, and a present field is shown as it arrived, not in Python's rendering of the converted number. A missing field takes the text of the converted default: "0.0" for the float fields, "0" for the volume. A conversion that raises (a non-numeric price) is not modelled.
- A news reply holding a non-object item is one `MalformedNews` failure; which item and which exception are not modelled. Object items are dictionaries of strings.
- Logging, `to_json`, `save_report`, `export_markdown_report` and the timestamp clock are I/O. They are left out; the timestamp is an argument.
- The `config` argument of the factory is a map from attribute name to value; `config.py` and `main.py` are not part of this model.
- `Prompts.Registry`: the sixteen templates are stated as text and placeholder pieces. That their text pieces hold no `[` or `{` is not proved, because the concrete literals are too large for the solver. So `Prompts.FillTemplateInstantiates` and `Agent.BuildPromptSubstitutes` are proved for every plain template but not discharged for the registry.
- Prompts.NoMarkerLeft: Python's `str.replace` chain can recreate a marker from a value and the surrounding text. The property is therefore stated under the condition that no value holds the marker's opening bracket. It is not stated for arbitrary values.
- Text.Upper, Text.Title: ASCII letters only; Unicode case mapping is not modelled.
- Text.Lines: `splitlines` cuts at every line-break character, so a `\r\n` pair and a final line break give an extra empty line. The mock skips blank lines, so its reply is the same.
- The aiohttp-missing `ImportError` of the async client's constructor is not modelled.
- McpClient.SyncMcpStockClient.FetchStockPrice: the source reads the clock once in `get` and again in `set`; the model uses one `now` for both, so an entry expires `ttl` after the lookup rather than after the reply.
- McpClient.SyncMcpStockClient.FetchStockFundamentals: the same single reading for `get` and `set`.
- McpClient.SyncMcpStockClient.FetchStockNews: the same single reading for `get` and `set`.
- McpClient.SyncMcpStockClient.GetStockContext: one reading per fetch (`t1`, `t2`, `t3`), shared by that fetch's `get` and `set`; the source takes six.
- ModelClients.Complete: a `null` Ollama "response" or Gemini "text" member is read as missing, but the source returns `None` there. A first candidate or part that is not an object is not modelled.
- Agent.RunCompletes: Gemini runs are not covered. Whether they complete depends on every reply's candidates; `ModelClients.Complete` states when a single call raises.
- A class instance held as `model_client` is modelled as a `Backend` value; a user-supplied client subclass is not modelled beyond the three back ends.
