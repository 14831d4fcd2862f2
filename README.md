# alta-be search pipeline, modelled in Dafny

alta-be is a fashion-shopping backend. Its `/search` endpoint takes a user's
query, answers from a cache when it can, and otherwise:

1. asks a language model to rewrite the query through a `fetch_products`
   function call;
2. fetches products for the rewritten query from a shopping-search service;
3. asks the model again for filter facets (brands, colours, types,
   materials) of the product names;
4. computes the price bounds itself;
5. caches the listing under a key for the rewritten query and a key for the
   user's query.

In pairing mode the endpoint returns the bare product list instead of a
listing.

This project models that pipeline. Each file mirrors one part of it:

- `product_search.dfy` models the product normaliser `fetch_products`. It
  has a specification function (`FetchSpec`, built on `Build`) and the
  loop itself as a method (`FetchProducts`).
- `price_scan.dfy` models the normaliser's price scanner. This is the
  leftmost match of `[\d,]+\.?\d*`, with its commas dropped, passed to
  `float`. It is written as a greedy scanner and proved against a finite
  automaton for the same expression.
- `decimal.dfy` holds digit strings and Python's `str` on integers.
- `caching.dfy` holds:
  - the cache key (`search:<sha256 of the lower-cased, stripped query>:<bound>`);
  - the store, a class over a map from keys to entries that carry a
    time-to-live;
  - its read (`fetch_products_and_filters_with_cache`) and its write
    (`cache_result`).
- `filters.dfy` models `extract_filters`.
- `tool_calls.dfy` models the "first call with this name" rule that both
  model replies share.
- `search_router.dfy` holds the handler. `SearchSpec` gives the response,
  the store afterwards and the ordered trace of external effects (cache
  reads, model calls, search calls, cache writes). The `Search` method over
  the store class is proved equal to it.

The language model, the shopping-search service and the hash function are
parameters. The hash function is any function whose outputs are 64 lowercase
hexadecimal characters, as a SHA-256 hex digest is.

Behaviours of the handler and the normaliser worth noting:

- Pairing mode still reads the cache under the user's key first
  (app/routers/search.py:14). It skips only the second check (line 83).
- Pairing mode with an empty product list falls through to the filter step
  and writes the listing under both keys (lines 90-98).
- For an empty product list, the filter facets are whatever the model
  returns. Only the price bounds are forced to 0.
- A negative `max_num_products` is passed through unchecked. The model gives
  it Python's slice meaning, dropping that many results from the end.
- Price text whose leftmost match holds no digit (`","`, `",."`) makes
  `float` raise. The request then fails with a server error, so no partial
  list is returned.

## Model

| member | source | states |
|---|---|---|
| Decimal.NatToString | app/utils/caching.py:13 | `str(n)` of a non-negative integer is a non-empty digit string with no leading zero whose value is `n` |
| Decimal.IntToStringInjective | app/utils/caching.py:13 | two integers have the same decimal text exactly when they are equal |
| PriceScan.SkipGroup | app/utils/search.py:28 | the greedy `[\d,]+` run from `i` covers only digits and commas and stops at the first other character |
| PriceScan.SkipDigits | app/utils/search.py:28 | the greedy `\d*` run covers only digits and stops at the first non-digit |
| PriceScan.FirstCandidate | app/utils/search.py:28 | the first position holding a digit or comma is found; no earlier position holds one, and none exists when `None` is returned |
| PriceScan.MatchEnd | app/utils/search.py:28 | the greedy match from position `i` ends inside the text, and it is non-empty when it starts at a digit or comma |
| PriceScan.SearchPattern | app/utils/search.py:28 | a found match is a non-empty span inside the text |
| PriceScan.MatchStartsWithGroupChar | app/utils/search.py:28 | every substring in the language of the pattern is non-empty and starts with a digit or a comma |
| PriceScan.MatchEndState | app/utils/search.py:28 | the greedy match from a digit or comma is non-empty and is accepted by the automaton of the pattern |
| PriceScan.MatchEndLongest | app/utils/search.py:28 | no substring starting at the same position and ending after the greedy match is in the language |
| PriceScan.SearchPatternIsLeftmostLongest | app/utils/search.py:28 | the scanner has `re.search` semantics: a span exactly when some substring matches, the span matches, nothing further left matches, and it is the longest match at its start |
| PriceScan.RemoveCommasAppend | app/utils/search.py:29 | removing commas distributes over concatenation |
| PriceScan.RemoveCommasOfGroup | app/utils/search.py:29 | removing the commas of a `[\d,]` run leaves only digits, and leaves nothing exactly when the run has no digit |
| PriceScan.RemoveCommasJoin | app/utils/search.py:29 | removing the comma between two comma-free groups concatenates them |
| PriceScan.FloatOfGroup | app/utils/search.py:29 | `float` of a comma-stripped `[\d,]+` match raises exactly when the match holds no digit |
| PriceScan.FloatOfDotted | app/utils/search.py:29 | `float` of `digits.digits` raises exactly when both digit runs are empty |
| PriceScan.FloatOfFraction | app/utils/search.py:29 | `float` of a comma-stripped `[\d,]+\.\d*` match raises exactly when the match holds no digit |
| PriceScan.FloatOfMatch | app/utils/search.py:28-29 | for the greedy match at any candidate position, the conversion raises exactly when the match holds no digit |
| PriceScan.ParsePriceOutcomes | app/utils/search.py:26-29 | the price is `None` exactly when the text has no digit or comma; it raises exactly when the leftmost match has no digit; otherwise it is a non-negative number |
| PriceScan.FloatOfNonNegative | app/utils/search.py:29 | `float` of an unsigned decimal literal is never negative |
| PriceScan.ParsePriceGroupedExample | app/utils/search.py:28-29 | `"$1,234.50"` gives 1234.5: the thousands separator is dropped |
| PriceScan.ParsePriceRangeExample | app/utils/search.py:28-29 | `"$10 - $20"` gives 10: only the leftmost match counts |
| PriceScan.ParsePriceNoNumberExamples | app/utils/search.py:26-29 | `"Free"` and the empty text (a missing price key) give no price |
| PriceScan.ParsePriceCommaExample | app/utils/search.py:28-29 | `"a, b"` matches a lone comma, and `float("")` raises |
| ProductSearch.SliceLength | app/utils/search.py:25 | the length of `l[:n]` never exceeds the length of `l` |
| ProductSearch.PricesOfOutcomes | app/utils/search.py:26-29 | for each kept record: no price exactly when its price text (`""` when the key is missing) has no digit or comma; a rejected conversion exactly when the leftmost match has no digit; otherwise a non-negative number |
| ProductSearch.Build | app/utils/search.py:25-37 | the loop over the kept records can fail only with the price-conversion error |
| ProductSearch.BuildFailsAt | app/utils/search.py:29 | one rejected price conversion makes the whole call fail |
| ProductSearch.BuildSucceeds | app/utils/search.py:25-37 | with no rejected price conversion the loop completes |
| ProductSearch.BuildFails | app/utils/search.py:25-37 | the loop fails exactly when some kept record's price conversion is rejected |
| ProductSearch.BuildKeepsOrder | app/utils/search.py:31-37 | on success there is one product per kept record, and product `i` is record `i` mapped field by field |
| ProductSearch.BuildPrefixFailure | app/utils/search.py:25-29 | once the records up to some point fail to convert, the whole call fails with that error (the exception ends the loop) |
| ProductSearch.FetchProducts | app/utils/search.py:6-39 | the loop's result equals the specification: the upstream error on a non-200 status, otherwise the record-by-record conversion |
| ProductSearch.FetchLength | app/utils/search.py:25 | at most as many products as results; `min(len, n)` for a non-negative bound; Python's negative-slice length otherwise |
| ProductSearch.FetchFieldMapping | app/utils/search.py:31-37 | product `i` takes the title, source, product link and thumbnail of result `i` (`None` when missing) and the parsed number of its price text |
| ProductSearch.MissingPriceKey | app/utils/search.py:26-29 | a record without a price key gets no price and never causes a failure |
| ProductSearch.FetchOutcomes | app/utils/search.py:19-29 | a non-200 status raises the upstream error; with status 200 the call raises exactly when a kept record's leftmost price match has no digit; no `shopping_results` gives `[]` |
| ToolCalls.FirstNamed | app/utils/filters.py:37-40 | the position of the first call with the given name: it has that name and no earlier call does; when none is found, no call has it |
| ToolCalls.FirstNamedAt | app/routers/search.py:74-77 | a call with the name and none before it is the one acted on |
| ToolCalls.FindFirstNamed | app/routers/search.py:74-77 | the loop over the tool calls stops at the first call with the name, as the specification says |
| Filters.ShownNamesAreTitles | app/utils/filters.py:6 | the names shown to the filter model are the titles of the kept search results, one per product, in order (`None` when a result has no title) |
| Filters.NumericPrices | app/utils/filters.py:43 | the valid prices are exactly the numeric prices of the products |
| Filters.Min | app/utils/filters.py:50 | `min` of a non-empty list is an element no greater than any element |
| Filters.Max | app/utils/filters.py:51 | `max` of a non-empty list is an element no smaller than any element |
| Filters.NoFilterCallFallback | app/utils/filters.py:37-53 | with no `extract_filters` call the summary is four empty lists and bounds 0 and 0 |
| Filters.FirstFilterCallUsed | app/utils/filters.py:39-52 | the first `extract_filters` call's four lists are returned unchanged, with the bounds computed from the products |
| Filters.PriceBoundsSpec | app/utils/filters.py:43-51 | the bounds are 0 and 0 when no product has a price; otherwise ordered, each attained by a product, and enclosing every price |
| Filters.BoundsIgnoreModel | app/utils/filters.py:43-51 | the price bounds do not depend on what the model answers, as long as it calls `extract_filters` |
| Filters.BoundsExample | app/utils/filters.py:50-51 | prices 29.99, none and 79.99 give bounds 29.99 and 79.99 |
| Caching.StripLeft | app/utils/caching.py:11 | `lstrip` removes exactly the leading whitespace and keeps a suffix |
| Caching.StripRight | app/utils/caching.py:11 | `rstrip` removes exactly the trailing whitespace and keeps a prefix |
| Caching.StripPadded | app/utils/caching.py:11 | stripping ignores whitespace added on either side |
| Caching.LowerIdempotent | app/utils/caching.py:11 | lower-casing twice is lower-casing once |
| Caching.SplitKey | app/utils/caching.py:13 | `search:d:n` with colon-free `d` and `n` splits on `:` into exactly those three parts |
| Caching.KeyParts | app/utils/caching.py:9-13 | every key splits into `search`, the digest of the normalised query, and the decimal bound |
| Caching.KeyStartsWithPrefix | app/utils/caching.py:13 | every key starts with `search:` |
| Caching.KeyEquality | app/utils/caching.py:9-13 | two keys are equal exactly when their bounds are equal and their normalised queries have the same digest |
| Caching.KeyIgnoresCaseAndPadding | app/utils/caching.py:9-13 | queries differing only in letter case or surrounding whitespace share a key for the same bound |
| Caching.ResultCache.FetchWithCache | app/utils/caching.py:15-20 | a read hits exactly when the key of the query and bound is stored, and then yields the stored value |
| Caching.ResultCache.CacheResult | app/utils/caching.py:22-24 | a write stores the value with its time-to-live (600 by default) under the key and leaves every other key unchanged |
| SearchRouter.FetchAndCache | app/routers/search.py:79-99 | the handler after the rewrite: response, trace and new store equal the specification, starting from the second cache check |
| SearchRouter.Search | app/routers/search.py:11-101 | the handler's response, trace of effects and new store equal the specification for the same store and oracles |
| SearchRouter.ActOnQueryCalls | app/routers/search.py:83-88 | after the rewrite the only cache read is on the rewritten key, and only in plain searches; the only search uses the rewritten query and the bound; the model is not asked again |
| SearchRouter.ActOnQueryStore | app/routers/search.py:83-99 | after the rewrite a write happens only with a listing answer and under exactly the two keys, storing that listing for 600 s; without a write the store is unchanged |
| SearchRouter.ActOnQueryWrites | app/routers/search.py:93-99 | on the writing path both keys hold the listing with the default time-to-live and no other key changes |
| SearchRouter.ActOnQueryWriteThenHit | app/routers/search.py:95-98 | a path that writes leaves its listing under the user's key |
| SearchRouter.UserKeyReadFirst | app/routers/search.py:14-17 | every request, pairing mode included, first reads the cache under the user's query and bound |
| SearchRouter.UserKeyHit | app/routers/search.py:14-17 | a hit on the user's key returns the cached listing with no other effect and no write |
| SearchRouter.NoFetchCall | app/routers/search.py:74-101 | without a `fetch_products` call the answer is "No products found"; the store is unchanged and no search happens |
| SearchRouter.FirstFetchCallActedOn | app/routers/search.py:74-88 | only the first `fetch_products` call is acted on, and the single search uses its query with bound 5 in pairing mode and the requested bound otherwise |
| SearchRouter.PairingReadsOnlyUserKey | app/routers/search.py:14-86 | in pairing mode the only cache read is the first one, on the user's key |
| SearchRouter.RewrittenQueryHit | app/routers/search.py:83-86 | a plain search whose rewritten query is cached returns that listing without searching or writing |
| SearchRouter.PairingReturnsBareList | app/routers/search.py:90-91 | pairing mode with a non-empty product list returns the bare list, with no filter call and no write |
| SearchRouter.SearchFailure | app/routers/search.py:88 | a failed product search is a server error, and nothing is written |
| SearchRouter.UpstreamFailure | app/routers/search.py:88 | a non-200 reply of the search service is the upstream error, and nothing is written |
| SearchRouter.ListingWrittenUnderBothKeys | app/routers/search.py:93-99 | every other fetch path, pairing mode with no products included, returns the listing and writes it for 600 s under the rewritten and the user key (both with the effective bound); no other key changes |
| SearchRouter.CacheChangesOnlyByWrites | app/routers/search.py:93-99 | on every path the store changes only through the writes in the trace, and a changed key holds the returned listing |
| SearchRouter.RepeatedSearchHitsCache | app/routers/search.py:14-98 | a plain search that wrote its listing, repeated, is answered from the cache with the same response, whatever the oracles answer the second time |

## Left out

- The HTTP call to the shopping-search service is not modelled. It is
  replaced by its reply: the status and the `shopping_results` records.
  Query parameters, the API key and network errors are not modelled.
- The language-model calls are parameters. Each turns the prompt inputs
  into a list of tool calls with decoded arguments. The prompts and
  `json.loads` of the arguments are not modelled. An argument without
  `query` or a facet list would raise, and the model does not capture that.
- SHA-256 is abstract: any function whose outputs are 64 lowercase hex
  characters. Distinct queries with the same digest share a key in the
  model, as they would in Redis.
- Redis is a map. The expiry of the time-to-live is not modelled, because
  there is no clock; the time-to-live is only recorded. Connection errors
  are not modelled either.
- The JSON encoding around stored values is taken to be the identity.
  Every stored payload is a non-empty dict, so "truthy" equals "present".
- Prices are exact reals, so the IEEE double rounding of `float` is not
  modelled.
- `float` is modelled only on what the pattern can match (digits and at
  most one dot). Signs, exponents, `inf` and `nan` are not modelled.
- `\d` and `str.isspace` are restricted to ASCII. `lower()` folds only A-Z.
  Unicode digits, spaces and case folding are not modelled.
- Record fields are modelled as strings. Non-string JSON values in a record
  (a numeric `price`, say) are not modelled.
- `print`, `async` and concurrency are not modelled. Neither are pydantic
  validation of the request and the HTTP framing of responses and errors.
  The framing includes the 500 status, and the 500 produced when `float`
  raises.
- Other code is not part of this model:
  - `main.py` and `app/main.py` (application set-up and the other
    endpoints);
  - `app/config.py` (clients and keys).
