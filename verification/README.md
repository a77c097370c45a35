# NewsNetworkManager in Dafny

A model of the Swift client library `NewsNetworkManager`, which wraps the
newsapi.org v2 HTTP API with three read-only operations: `getHeadlines`
(top headlines of a country), `getArticles` (full-text article search) and
`getSources` (the list of news sources). The library's logic is a thin
translation layer, and the model covers all of it:

- **Paging clamps** (`Paging`, `Protocol`). The `NetworkManager` protocol
  extension declares default arguments. Before forwarding a call, it pulls
  `pageSize` into [20, 100] and makes `page` at least 1.
- **Query-parameter maps** (`QueryParams`). `NetworkManagerClient` builds a
  `[String: String]` map for each operation, with fixed keys, optional keys
  and keys for non-empty lists. Values come from enum wire values, optional
  strings and comma-joined lists. The client's own builders do not clamp:
  they send the paging values they are given.
- **Request dispatch** (`Dispatch`). `sendRequest` appends the endpoint's
  path to `https://newsapi.org/v2/`. It then maps the outcome of building
  the URL, the transport reply and the two decode attempts (the expected
  shape, then `ErrorResponse`) to exactly one result: success,
  `invalidURL`, `failedRequest`, `errorResponse(payload)` or
  `decodingError`. An error payload whose status is `"ok"` counts as a
  decoding error.
- **The public operations** (`Client`). Each operation is its parameter
  builder followed by `sendRequest` on its endpoint.
- **Supporting pieces.** `Enums` holds the enums and their wire values, each
  with the inverse `init?(rawValue:)`. `Entities` holds the response records.
  `Text` holds comma joining with a split inverse, and decimal rendering of
  `Int` with a parse inverse.

The capabilities the client holds are inputs to the model, each a function
the caller supplies: URL construction (`Request -> bool`), the URL session
(`Request -> Option<Data>`) and the JSON decoder (`Data -> Option<T>`).

Three behaviours of the code worth knowing:

- `getArticles` builds the `sources`, `domains` and `excludeDomains` values
  from the `searchIn` list, not from their own lists
  (`NewsNetworkManager.swift:141`, `:144`, `:147`). The model reproduces
  this. Each of those keys is still present exactly when its own list is
  non-empty, and its value is the joined `searchIn` wire values (the empty
  string when `searchIn` is empty). See "## Findings".
- Clamping happens only in the protocol extension. The client's builders do
  not clamp (`ClientDoesNotClamp`).
- The headlines free-text key is `query` (`:109`), as written.

## Model

| member | source | states |
|---|---|---|
| Paging.ClampPageSize | Sources/NewsNetworkManager/NewsNetworkManager.swift:48 | the forwarded page size always lies in [20, 100]; inputs below 20 become 20, above 100 become 100, in-range inputs are unchanged |
| Paging.ClampPage | Sources/NewsNetworkManager/NewsNetworkManager.swift:49 | the forwarded page is always at least 1; positive inputs are unchanged, non-positive ones become 1 |
| Paging.ClampPageSizeIsNearest | Sources/NewsNetworkManager/NewsNetworkManager.swift:48 | the clamped page size is the valid page size closest to the input (correct, never reject) |
| Paging.ClampPageIsNearest | Sources/NewsNetworkManager/NewsNetworkManager.swift:49 | the clamped page is the valid page closest to the input |
| Paging.ClampPageSizeMonotonic | Sources/NewsNetworkManager/NewsNetworkManager.swift:48 | clamping never reverses the order of two page sizes |
| Paging.ClampIdempotent | Sources/NewsNetworkManager/NewsNetworkManager.swift:48-49 | clamping an already clamped value changes nothing |
| Protocol.DefaultHeadlinesArgs | Sources/NewsNetworkManager/NewsNetworkManager.swift:37-43 | the default headlines call is country `ru`, no category, page size 20 and page 1 with the given query; it already satisfies the paging rules, so forwarding leaves it unchanged |
| Protocol.DefaultArticlesArgs | Sources/NewsNetworkManager/NewsNetworkManager.swift:53-65 | the default articles call has empty lists, no dates, no language, sort order `publishedAt`, page size 20 and page 1 with the given `q`; forwarding leaves it unchanged |
| Protocol.NormalizeHeadlines | Sources/NewsNetworkManager/NewsNetworkManager.swift:44-50 | the extension forwards country, category and query untouched and exactly the clamped page size and page, so it changes the call exactly when its paging was invalid |
| Protocol.NormalizeArticles | Sources/NewsNetworkManager/NewsNetworkManager.swift:66-78 | the extension forwards every articles argument except paging untouched and exactly the clamped page size and page, so it changes the call exactly when its paging was invalid |
| Protocol.NormalizeIdempotent | Sources/NewsNetworkManager/NewsNetworkManager.swift:44-78 | forwarding a call through the extension twice is the same as once |
| QueryParams.Assign | Sources/NewsNetworkManager/NewsNetworkManager.swift:109-110 | assigning an optional to a dictionary key stores the value, or removes the key for `nil`, and leaves every other key as it was |
| QueryParams.HeadlinesParams | Sources/NewsNetworkManager/NewsNetworkManager.swift:104-110 | the headlines map always holds `country` (reading back to the argument) and `pageSize` and `page` as the decimal text of the arguments, which parses back to them; it holds `query` and `category` exactly when they are given; it holds no other key |
| QueryParams.ArticlesParams | Sources/NewsNetworkManager/NewsNetworkManager.swift:132-152 | the articles map always holds `sortBy` (reading back to the argument) and `pageSize` and `page` as decimal text that parses back to the arguments; each list key is present exactly when its own list is non-empty, and every one carries the joined `searchIn` values; `q`, `from`, `to`, `language` are present exactly when given, with the argument or its wire value; no other key |
| QueryParams.ArticlesBase | Sources/NewsNetworkManager/NewsNetworkManager.swift:132-136 | exactly the three fixed keys, carrying the sort order's wire value and the decimal text of the paging values, which parses back to them |
| QueryParams.ArticlesLists | Sources/NewsNetworkManager/NewsNetworkManager.swift:137-148 | each `if !list.isEmpty` step adds its key exactly when its list is non-empty and touches nothing else |
| QueryParams.ArticlesScalars | Sources/NewsNetworkManager/NewsNetworkManager.swift:149-152 | the four optional assignments store each given scalar and keep every earlier key |
| QueryParams.SourcesParams | Sources/NewsNetworkManager/NewsNetworkManager.swift:157-159 | `getSources` sends no parameters |
| QueryParams.SearchInValueRoundTrip | Sources/NewsNetworkManager/NewsNetworkManager.swift:138 | a non-empty `searchIn` value splits back at the commas into the search fields, in input order |
| QueryParams.SourcesValueIgnoresSources | Sources/NewsNetworkManager/NewsNetworkManager.swift:140-142 | asking for one source and nothing else sends `sources` with the empty string, not the source id |
| QueryParams.IntendedArticlesParams | Sources/NewsNetworkManager/NewsNetworkManager.swift:137-148 | corrected builder: each list key carries its own list joined with commas |
| QueryParams.IntendedAgreesOffLists | Sources/NewsNetworkManager/NewsNetworkManager.swift:132-152 | the correction changes only the list keys; every other key is the same as in the code as written |
| QueryParams.IntendedSourcesRoundTrip | Sources/NewsNetworkManager/NewsNetworkManager.swift:140-142 | with the correction, a list of comma-free source ids reads back from `sources` unchanged |
| Text.SplitJoin | Sources/NewsNetworkManager/NewsNetworkManager.swift:138 | `joined(separator: ",")` over comma-free pieces is undone by splitting at the commas |
| Text.DecimalString | Sources/NewsNetworkManager/NewsNetworkManager.swift:106-107 | `String(Int)` is never empty and starts with a minus sign exactly for negative values |
| Text.DecimalRoundTrip | Sources/NewsNetworkManager/NewsNetworkManager.swift:106-107 | every rendered paging value reads back as the integer it came from |
| Text.DecimalInjective | Sources/NewsNetworkManager/NewsNetworkManager.swift:134-135 | two different paging values are never sent as the same string |
| Enums.EndpointFromRaw | Sources/NewsNetworkManager/NewsNetworkManager.swift:197-201 | the endpoint paths `everything`, `top-headlines`, `top-headlines/sources` and the endpoints determine each other |
| Enums.SearchInFromRaw | Sources/NewsNetworkManager/NewsNetworkManager.swift:203-205 | the search fields and their wire values determine each other |
| Enums.LanguageFromRaw | Sources/NewsNetworkManager/NewsNetworkManager.swift:207-209 | the languages and their wire values determine each other |
| Enums.SortByFromRaw | Sources/NewsNetworkManager/NewsNetworkManager.swift:211-213 | the sort orders and their wire values determine each other |
| Enums.CountryFromRaw | Sources/NewsNetworkManager/NewsNetworkManager.swift:215-217 | the countries and their wire values determine each other |
| Enums.CategoryFromRaw | Sources/NewsNetworkManager/NewsNetworkManager.swift:219-221 | the categories and their wire values determine each other |
| Enums.AllCategories | Sources/NewsNetworkManager/NewsNetworkManager.swift:219-221 | `allCases` lists each of the eight categories exactly once, in declaration order |
| Enums.SearchInRawValues | Sources/NewsNetworkManager/NewsNetworkManager.swift:138 | mapping search fields to wire values keeps length and order, and each value reads back as its field |
| Dispatch.RequestTo | Sources/NewsNetworkManager/NewsNetworkManager.swift:166-170 | a request path is the base address followed by a path that reads back as the endpoint; the query items are the parameter map unchanged |
| Dispatch.RequestPathsDistinct | Sources/NewsNetworkManager/NewsNetworkManager.swift:169 | different endpoints never share a request path |
| Dispatch.SendRequest | Sources/NewsNetworkManager/NewsNetworkManager.swift:161-194 | `invalidURL` iff the URL cannot be built; `failedRequest` iff there is no reply; success iff the expected shape decodes, carrying that value; `errorResponse` iff only the error shape decodes with a status other than `ok`, carrying that payload; `decodingError` in every other case |
| Dispatch.OkStatusNeverReported | Sources/NewsNetworkManager/NewsNetworkManager.swift:187-189 | an error payload whose status is `ok` never reaches the caller as an API error |
| Dispatch.NoTransportWithoutUrl | Sources/NewsNetworkManager/NewsNetworkManager.swift:172-179 | when the URL cannot be built, the transport's answer does not affect the result |
| Dispatch.NoErrorDecodeOnSuccess | Sources/NewsNetworkManager/NewsNetworkManager.swift:183-193 | when the expected shape decodes, the error decoder does not affect the result |
| Dispatch.ConditionsPartitionInputs | Sources/NewsNetworkManager/NewsNetworkManager.swift:172-193 | the five situations `sendRequest` distinguishes (no URL, no reply, expected shape, reportable error payload, anything else) cover every input and never overlap |
| Client.GetHeadlines | Sources/NewsNetworkManager/NewsNetworkManager.swift:96-116 | a headlines success is exactly an articles payload decoded from the reply to the `top-headlines` request; an `ok` status is never reported as an error |
| Client.GetArticles | Sources/NewsNetworkManager/NewsNetworkManager.swift:118-155 | an articles success is exactly an articles payload decoded from the reply to the `everything` request; an `ok` status is never reported as an error |
| Client.GetSources | Sources/NewsNetworkManager/NewsNetworkManager.swift:157-159 | a sources success is exactly a sources payload decoded from the reply to the sources request |
| Client.SourcesRequestIsBare | Sources/NewsNetworkManager/NewsNetworkManager.swift:158 | `getSources` asks for `https://newsapi.org/v2/top-headlines/sources` with no query items |
| Client.DefaultHeadlinesRequest | Tests/NewsNetworkManagerTests/NewsNetworkManagerTests.swift:7-10 | `getHeadlines(query: nil)` asks for `top-headlines` with exactly `country=ru`, `pageSize=20`, `page=1` |
| Client.ElectionArticlesRequest | Tests/NewsNetworkManagerTests/NewsNetworkManagerTests.swift:17-20 | `getArticles(q: "election")` asks for `everything` with exactly `q=election`, `sortBy=publishedAt`, `pageSize=20`, `page=1` |
| Client.ExtensionSendsValidPaging | Sources/NewsNetworkManager/NewsNetworkManager.swift:44-78 | any call forwarded by the extension sends a page size in [20, 100] and a page of at least 1 |
| Client.ClientDoesNotClamp | Sources/NewsNetworkManager/NewsNetworkManager.swift:104-108 | the client's own `getHeadlines` sends the page size it is given, even 500 |

## Left out

- `URLSession`, `URLRequest` and the network call (`:176-181`) are I/O. The transport is the input `send: Request -> Option<Data>`, and `None` stands for a thrown error.
- The `X-Api-Key` header and the `key` it carries (`:83`, `:88-89`, `:177`) are not modelled. The key decides whether the API answers with a payload or an error payload, but it is fixed when the client is created (`:88-89`). So `send` stands for the transport as seen with that one key, and an `Environment` describes one client.
- `URLComponents`/`URL` construction and when it fails (`:166-174`) are not modelled. Success is the input `urlBuilds: Request -> bool`. The force-unwrapped `URLComponents(string:)!` on a fixed string is taken to succeed.
- `JSONDecoder`, ISO-8601 date decoding and the `Codable` conformances of the entities are not modelled. Each decode attempt is an input `Data -> Option<T>`. URLs and dates in `ArticleEntity` are kept as text.
- `actor` isolation and `async` are not modelled. The client has no mutable state after `init`, so every call is a pure function of its inputs.
- Swift's `Int` is 64-bit; the model uses unbounded integers. No modelled operation does arithmetic on the paging values, so nothing can wrap around.
- The order of query items that comes from iterating a Swift dictionary is unspecified. Query items stay a map.
- `Tests/NewsNetworkManagerTests/NewsNetworkManagerTests.swift` makes live calls with an API key. Only its three call shapes appear here, as request scenarios.
- `Package.swift` is a build manifest with no logic.

## Findings

| source | as written | input that shows it | evidently intended | confidence | as-written member | corrected member |
|---|---|---|---|---|---|---|
| Sources/NewsNetworkManager/NewsNetworkManager.swift:140-148 | the `sources`, `domains` and `excludeDomains` values are `searchIn.map { $0.rawValue }.joined(separator: ",")` | `getArticles(q: nil, sources: ["bbc-news"])` sends `sources` with the empty string | each key carries its own list joined with `,` | high; not executed | QueryParams.SourcesValueIgnoresSources | QueryParams.IntendedArticlesParams |

`QueryParams.ArticlesParams` models the code as written, and `Client.GetArticles`
uses it, so that the client operations describe what the library sends.
`QueryParams.IntendedArticlesParams` is the corrected builder.
`QueryParams.IntendedAgreesOffLists` proves that it differs from the code
only on the list keys.
