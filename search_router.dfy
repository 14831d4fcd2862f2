/**
 * The `/search` handler: a first cache check on the user's query, the
 * language model's function call that rewrites the query, a second cache
 * check on the rewritten query (plain searches only), the product search, and
 * then either the bare product list (pairing mode with products) or the
 * filter summary followed by a write of the listing under two keys.
 *
 * The language model, the shopping-search service and the filter model are
 * parameters (pure oracles). Each run also yields the trace of the external
 * effects it performed, so that which calls a path makes can be stated.
 */
module SearchRouter {
  import opened Wrappers
  import opened ToolCalls
  import opened ProductSearch
  import opened Filters
  import opened Caching

  datatype SearchRequest = SearchRequest(
    query: string,
    isFetchPairing: bool := false,
    maxNumProducts: int := 10)

  /** `{"products": ..., "filters": ...}`: the only payload ever cached. */
  datatype Listing = Listing(products: seq<Product>, filters: FilterSummary)

  datatype Response =
    | Found(listing: Listing)                 // a listing, fresh or from the cache
    | PairedProducts(products: seq<Product>)  // the bare product list of pairing mode
    | NoProductsFound                         // {"message": "No products found"}
    | ServerError(error: FetchError)          // the product search raised

  /** An external effect of the handler, in the order performed. */
  datatype Event =
    | CacheRead(key: string)
    | AskIntent(query: string, pairing: bool)
    | SearchCall(query: string, bound: int)
    | AskFilters(names: seq<Option<string>>)
    | CacheWrite(key: string)

  /** The response, the cache afterwards and the effects performed. */
  datatype Outcome = Outcome(response: Response, entries: map<string, Entry<Listing>>, trace: seq<Event>)

  /** The intent model: tool calls (with their `query` argument) for a query in a mode. */
  type IntentModel = (string, bool) -> seq<ToolCall<string>>
  /** The shopping-search service: its reply for a query and a bound. */
  type SearchService = (string, int) -> UpstreamReply
  /** The filter model: tool calls for a list of product names. */
  type FilterModel = seq<Option<string>> -> seq<ToolCall<FilterArgs>>

  const FetchProductsTool: string := "fetch_products"
  const PairingBound: int := 5

  /** The bound the product search is run with. */
  function EffectiveBound(request: SearchRequest): int {
    if request.isFetchPairing then PairingBound else request.maxNumProducts
  }

  /** The key of the first cache check. */
  function UserKey(hash: Hasher, request: SearchRequest): string {
    CacheKey(hash, request.query, request.maxNumProducts)
  }

  /**
   * Lines 83-101 of the handler, once the two keys and the product search's
   * result are known: the second cache check (plain searches only), the
   * product search, then the bare list (pairing mode with products) or the
   * listing with its filter summary, written under both keys. The trace holds
   * the effects from the second cache check on.
   */
  function ActOnQuery(entries: map<string, Entry<Listing>>, pairing: bool, query: string, bound: int,
                      gptKey: string, userKey: string, fetched: Result<seq<Product>, FetchError>,
                      filterModel: FilterModel): Outcome
  {
    var t2 := if pairing then [] else [CacheRead(gptKey)];
    if !pairing && gptKey in entries then
      Outcome(Found(entries[gptKey].value), entries, t2)
    else
      var t3 := t2 + [SearchCall(query, bound)];
      match fetched
      case Failure(e) => Outcome(ServerError(e), entries, t3)
      case Success(products) =>
        if |products| > 0 && pairing then
          Outcome(PairedProducts(products), entries, t3)
        else
          var names := ProductNames(products);
          var listing := Listing(products, ExtractFilters(products, filterModel(names)));
          var entry := Entry(listing, DefaultTtl);
          Outcome(Found(listing), entries[gptKey := entry][userKey := entry],
                  t3 + [AskFilters(names), CacheWrite(gptKey), CacheWrite(userKey)])
  }

  /** Lines 79-101 of the handler: act on the rewritten query of the first `fetch_products` call. */
  function AfterIntent(hash: Hasher, entries: map<string, Entry<Listing>>, request: SearchRequest,
                       query: string, search: SearchService, filterModel: FilterModel): Outcome
  {
    var bound := EffectiveBound(request);
    ActOnQuery(entries, request.isFetchPairing, query, bound,
               CacheKey(hash, query, bound), CacheKey(hash, request.query, bound),
               FetchSpec(search(query, bound), bound), filterModel)
  }

  /** What `search(request)` answers, writes and calls, given the store and the oracles. */
  function SearchSpec(hash: Hasher, entries: map<string, Entry<Listing>>, request: SearchRequest,
                      intent: IntentModel, search: SearchService, filterModel: FilterModel): Outcome
  {
    var userKey := UserKey(hash, request);
    if userKey in entries then
      Outcome(Found(entries[userKey].value), entries, [CacheRead(userKey)])
    else
      var calls := intent(request.query, request.isFetchPairing);
      var t1 := [CacheRead(userKey), AskIntent(request.query, request.isFetchPairing)];
      match FirstNamed(calls, FetchProductsTool)
      case None => Outcome(NoProductsFound, entries, t1)
      case Some(i) =>
        var o := AfterIntent(hash, entries, request, calls[i].arguments, search, filterModel);
        Outcome(o.response, o.entries, t1 + o.trace)
  }

  /** Lines 79-101 of the handler: act on the rewritten query. */
  method FetchAndCache(store: ResultCache<Listing>, request: SearchRequest, query: string,
                       search: SearchService, filterModel: FilterModel)
    returns (response: Response, trace: seq<Event>)
    modifies store
    ensures var o := AfterIntent(store.hash, old(store.entries), request, query, search, filterModel);
            response == o.response && trace == o.trace && store.entries == o.entries
  {
    var bound := if request.isFetchPairing then PairingBound else request.maxNumProducts;
    trace := [];
    if !request.isFetchPairing {
      trace := [CacheRead(CacheKey(store.hash, query, bound))];
      var cached := store.FetchWithCache(query, bound);
      if cached.Some? {
        return Found(cached.value), trace;
      }
    }
    var fetched := FetchProducts(search(query, bound), bound);
    trace := trace + [SearchCall(query, bound)];
    if fetched.Failure? {
      return ServerError(fetched.error), trace;
    }
    var products := fetched.value;
    if |products| > 0 && request.isFetchPairing {
      return PairedProducts(products), trace;
    }
    var names := ProductNames(products);
    var filters := ExtractFilters(products, filterModel(names));
    var data := Listing(products, filters);
    var gptKey := CacheKey(store.hash, query, bound);
    var userKey := CacheKey(store.hash, request.query, bound);
    store.CacheResult(gptKey, data);
    store.CacheResult(userKey, data);
    trace := trace + [AskFilters(names), CacheWrite(gptKey), CacheWrite(userKey)];
    return Found(data), trace;
  }

  /** `search(request)`: the handler of the search endpoint. */
  method Search(store: ResultCache<Listing>, request: SearchRequest,
                intent: IntentModel, search: SearchService, filterModel: FilterModel)
    returns (response: Response, trace: seq<Event>)
    modifies store
    ensures var o := SearchSpec(store.hash, old(store.entries), request, intent, search, filterModel);
            response == o.response && trace == o.trace && store.entries == o.entries
  {
    var key := CacheKey(store.hash, request.query, request.maxNumProducts);
    var cached := store.FetchWithCache(request.query, request.maxNumProducts);
    if cached.Some? {
      return Found(cached.value), [CacheRead(key)];
    }
    var calls := intent(request.query, request.isFetchPairing);
    trace := [CacheRead(key), AskIntent(request.query, request.isFetchPairing)];
    var found := FindFirstNamed(calls, FetchProductsTool);
    if found.None? {
      return NoProductsFound, trace;
    }
    var rest;
    response, rest := FetchAndCache(store, request, calls[found.value].arguments, search, filterModel);
    ghost var a := AfterIntent(store.hash, old(store.entries), request, calls[found.value].arguments, search, filterModel);
    assert rest == a.trace;
    return response, trace + rest;
  }

  // ---------------------------------------------------------------------------
  // Properties of the handler
  // ---------------------------------------------------------------------------

  /**
   * The calls from the second cache check on: the only cache read is on the
   * rewritten query's key, in plain searches; the only product search is on
   * the rewritten query with the given bound; the model is not asked again.
   */
  lemma ActOnQueryCalls(entries: map<string, Entry<Listing>>, pairing: bool, query: string, bound: int,
                        gptKey: string, userKey: string, fetched: Result<seq<Product>, FetchError>,
                        filterModel: FilterModel)
    ensures var o := ActOnQuery(entries, pairing, query, bound, gptKey, userKey, fetched, filterModel);
            (forall e :: e in o.trace && e.CacheRead? ==> !pairing && e.key == gptKey) &&
            (forall e :: e in o.trace && e.SearchCall? ==> e == SearchCall(query, bound)) &&
            (forall e :: e in o.trace ==> !e.AskIntent?)
  {
  }

  /**
   * The writes from the second cache check on: a write happens only together
   * with a listing answer, under exactly the two keys, storing that listing
   * with the default time-to-live. Without a write the store is unchanged.
   */
  lemma ActOnQueryStore(entries: map<string, Entry<Listing>>, pairing: bool, query: string, bound: int,
                        gptKey: string, userKey: string, fetched: Result<seq<Product>, FetchError>,
                        filterModel: FilterModel)
    ensures var o := ActOnQuery(entries, pairing, query, bound, gptKey, userKey, fetched, filterModel);
            ((exists e :: e in o.trace && e.CacheWrite?) ==>
               o.response.Found? &&
               CacheWrite(gptKey) in o.trace && CacheWrite(userKey) in o.trace &&
               (forall e :: e in o.trace && e.CacheWrite? ==> e.key == gptKey || e.key == userKey) &&
               o.entries == entries[gptKey := Entry(o.response.listing, DefaultTtl)]
                                   [userKey := Entry(o.response.listing, DefaultTtl)]) &&
            ((forall e :: e in o.trace ==> !e.CacheWrite?) ==> o.entries == entries) &&
            (forall k :: k in o.entries && (k !in entries || o.entries[k] != entries[k]) ==>
               CacheWrite(k) in o.trace && o.response.Found? && o.entries[k] == Entry(o.response.listing, DefaultTtl))
  {
  }

  /**
   * Every request, pairing mode included, first reads the cache under the
   * user's query and requested bound.
   */
  lemma UserKeyReadFirst(hash: Hasher, entries: map<string, Entry<Listing>>, request: SearchRequest,
                         intent: IntentModel, search: SearchService, filterModel: FilterModel)
    ensures var o := SearchSpec(hash, entries, request, intent, search, filterModel);
            |o.trace| >= 1 && o.trace[0] == CacheRead(CacheKey(hash, request.query, request.maxNumProducts))
  {
  }

  /**
   * A hit on the user's key answers the cached listing, in either mode, with
   * no model, search or filter call and no write.
   */
  lemma UserKeyHit(hash: Hasher, entries: map<string, Entry<Listing>>, request: SearchRequest,
                   intent: IntentModel, search: SearchService, filterModel: FilterModel)
    requires CacheKey(hash, request.query, request.maxNumProducts) in entries
    ensures var o := SearchSpec(hash, entries, request, intent, search, filterModel);
            var key := CacheKey(hash, request.query, request.maxNumProducts);
            o.response == Found(entries[key].value) && o.entries == entries && o.trace == [CacheRead(key)]
  {
  }

  /** Without a `fetch_products` call the answer is "No products found" and the cache is unchanged. */
  lemma NoFetchCall(hash: Hasher, entries: map<string, Entry<Listing>>, request: SearchRequest,
                    intent: IntentModel, search: SearchService, filterModel: FilterModel)
    requires CacheKey(hash, request.query, request.maxNumProducts) !in entries
    requires var calls := intent(request.query, request.isFetchPairing);
             forall j :: 0 <= j < |calls| ==> calls[j].name != FetchProductsTool
    ensures var o := SearchSpec(hash, entries, request, intent, search, filterModel);
            o.response == NoProductsFound && o.entries == entries &&
            o.trace == [CacheRead(CacheKey(hash, request.query, request.maxNumProducts)),
                        AskIntent(request.query, request.isFetchPairing)]
  {
  }

  /**
   * Only the first `fetch_products` call is acted on: the outcome depends on
   * its query alone, and the only product search uses that query with the
   * effective bound (5 in pairing mode, the requested bound otherwise).
   */
  lemma FirstFetchCallActedOn(hash: Hasher, entries: map<string, Entry<Listing>>, request: SearchRequest,
                              intent: IntentModel, search: SearchService, filterModel: FilterModel, i: nat)
    requires CacheKey(hash, request.query, request.maxNumProducts) !in entries
    requires var calls := intent(request.query, request.isFetchPairing);
             i < |calls| && calls[i].name == FetchProductsTool &&
             forall j :: 0 <= j < i ==> calls[j].name != FetchProductsTool
    ensures var o := SearchSpec(hash, entries, request, intent, search, filterModel);
            var query := intent(request.query, request.isFetchPairing)[i].arguments;
            var a := AfterIntent(hash, entries, request, query, search, filterModel);
            o.response == a.response && o.entries == a.entries &&
            o.trace == [CacheRead(CacheKey(hash, request.query, request.maxNumProducts)),
                        AskIntent(request.query, request.isFetchPairing)] + a.trace &&
            forall e :: e in o.trace && e.SearchCall? ==>
              e == SearchCall(query, if request.isFetchPairing then 5 else request.maxNumProducts)
  {
    var calls := intent(request.query, request.isFetchPairing);
    FirstNamedAt(calls, FetchProductsTool, i);
    var query := calls[i].arguments;
    var bound := EffectiveBound(request);
    ActOnQueryCalls(entries, request.isFetchPairing, query, bound,
                    CacheKey(hash, query, bound), CacheKey(hash, request.query, bound),
                    FetchSpec(search(query, bound), bound), filterModel);
  }

  /** In pairing mode the only cache read is the first one, on the user's key. */
  lemma PairingReadsOnlyUserKey(hash: Hasher, entries: map<string, Entry<Listing>>, request: SearchRequest,
                                intent: IntentModel, search: SearchService, filterModel: FilterModel)
    requires request.isFetchPairing
    ensures var o := SearchSpec(hash, entries, request, intent, search, filterModel);
            forall e :: e in o.trace && e.CacheRead? ==>
              e.key == CacheKey(hash, request.query, request.maxNumProducts)
  {
    var userKey := UserKey(hash, request);
    if userKey !in entries {
      var calls := intent(request.query, request.isFetchPairing);
      match FirstNamed(calls, FetchProductsTool)
      case None =>
      case Some(i) =>
        var query := calls[i].arguments;
        var bound := EffectiveBound(request);
        ActOnQueryCalls(entries, request.isFetchPairing, query, bound,
                        CacheKey(hash, query, bound), CacheKey(hash, request.query, bound),
                        FetchSpec(search(query, bound), bound), filterModel);
    }
  }

  /**
   * A plain search whose rewritten query hits the cache answers the cached
   * listing without searching and without writing.
   */
  lemma RewrittenQueryHit(hash: Hasher, entries: map<string, Entry<Listing>>, request: SearchRequest,
                          query: string, search: SearchService, filterModel: FilterModel)
    requires !request.isFetchPairing
    requires CacheKey(hash, query, request.maxNumProducts) in entries
    ensures var o := AfterIntent(hash, entries, request, query, search, filterModel);
            o.response == Found(entries[CacheKey(hash, query, request.maxNumProducts)].value) &&
            o.entries == entries &&
            o.trace == [CacheRead(CacheKey(hash, query, request.maxNumProducts))]
  {
  }

  /**
   * Pairing mode with a non-empty product list answers the bare list: no
   * filter extraction and no cache write.
   */
  lemma PairingReturnsBareList(hash: Hasher, entries: map<string, Entry<Listing>>, request: SearchRequest,
                               query: string, search: SearchService, filterModel: FilterModel)
    requires request.isFetchPairing
    requires FetchSpec(search(query, 5), 5).Success? && |FetchSpec(search(query, 5), 5).value| > 0
    ensures var o := AfterIntent(hash, entries, request, query, search, filterModel);
            o.response == PairedProducts(FetchSpec(search(query, 5), 5).value) &&
            o.entries == entries &&
            o.trace == [SearchCall(query, 5)]
  {
  }

  /** A failed product search is a server error; nothing is written and no list is returned. */
  lemma SearchFailure(hash: Hasher, entries: map<string, Entry<Listing>>, request: SearchRequest,
                      query: string, search: SearchService, filterModel: FilterModel)
    requires request.isFetchPairing || CacheKey(hash, query, request.maxNumProducts) !in entries
    requires FetchSpec(search(query, EffectiveBound(request)), EffectiveBound(request)).Failure?
    ensures var o := AfterIntent(hash, entries, request, query, search, filterModel);
            o.response == ServerError(FetchSpec(search(query, EffectiveBound(request)), EffectiveBound(request)).error) &&
            o.entries == entries
  {
  }

  /** A non-200 reply of the search service is the upstream error, whatever the records. */
  lemma UpstreamFailure(hash: Hasher, entries: map<string, Entry<Listing>>, request: SearchRequest,
                        query: string, search: SearchService, filterModel: FilterModel)
    requires request.isFetchPairing || CacheKey(hash, query, request.maxNumProducts) !in entries
    requires search(query, EffectiveBound(request)).status != 200
    ensures var o := AfterIntent(hash, entries, request, query, search, filterModel);
            o.response == ServerError(UpstreamUnavailable) && o.entries == entries
  {
    FetchOutcomes(search(query, EffectiveBound(request)), EffectiveBound(request));
  }

  /**
   * Every other fetch path, pairing mode with an empty list included, answers
   * the products with their filter summary and writes that listing, with the
   * default time-to-live, under the rewritten query's key and the user
   * query's key (both with the effective bound); no other key changes.
   */
  lemma ListingWrittenUnderBothKeys(hash: Hasher, entries: map<string, Entry<Listing>>, request: SearchRequest,
                                    query: string, search: SearchService, filterModel: FilterModel)
    requires request.isFetchPairing || CacheKey(hash, query, request.maxNumProducts) !in entries
    requires FetchSpec(search(query, EffectiveBound(request)), EffectiveBound(request)).Success?
    requires !request.isFetchPairing ||
             |FetchSpec(search(query, EffectiveBound(request)), EffectiveBound(request)).value| == 0
    ensures var o := AfterIntent(hash, entries, request, query, search, filterModel);
            var bound := EffectiveBound(request);
            var products := FetchSpec(search(query, bound), bound).value;
            var listing := Listing(products, ExtractFilters(products, filterModel(ProductNames(products))));
            var gptKey := CacheKey(hash, query, bound);
            var userKey := CacheKey(hash, request.query, bound);
            o.response == Found(listing) &&
            gptKey in o.entries && o.entries[gptKey] == Entry(listing, 600) &&
            userKey in o.entries && o.entries[userKey] == Entry(listing, 600) &&
            (forall k :: k != gptKey && k != userKey ==>
               (k in o.entries <==> k in entries) && (k in entries ==> o.entries[k] == entries[k]))
  {
    var bound := EffectiveBound(request);
    ActOnQueryWrites(entries, request.isFetchPairing, query, bound,
                     CacheKey(hash, query, bound), CacheKey(hash, request.query, bound),
                     FetchSpec(search(query, bound), bound), filterModel);
  }

  /** The writing path with the keys and the search result as plain values. */
  lemma ActOnQueryWrites(entries: map<string, Entry<Listing>>, pairing: bool, query: string, bound: int,
                         gptKey: string, userKey: string, fetched: Result<seq<Product>, FetchError>,
                         filterModel: FilterModel)
    requires pairing || gptKey !in entries
    requires fetched.Success? && (!pairing || |fetched.value| == 0)
    ensures var o := ActOnQuery(entries, pairing, query, bound, gptKey, userKey, fetched, filterModel);
            var products := fetched.value;
            var listing := Listing(products, ExtractFilters(products, filterModel(ProductNames(products))));
            o.response == Found(listing) &&
            gptKey in o.entries && o.entries[gptKey] == Entry(listing, 600) &&
            userKey in o.entries && o.entries[userKey] == Entry(listing, 600) &&
            (forall k :: k != gptKey && k != userKey ==>
               (k in o.entries <==> k in entries) && (k in entries ==> o.entries[k] == entries[k]))
  {
  }

  /**
   * Whatever the path, the cache changes only through the writes in the
   * trace: with no write it is unchanged, and otherwise exactly the keys
   * written now hold the returned listing with the default time-to-live.
   */
  lemma CacheChangesOnlyByWrites(hash: Hasher, entries: map<string, Entry<Listing>>, request: SearchRequest,
                                 intent: IntentModel, search: SearchService, filterModel: FilterModel)
    ensures var o := SearchSpec(hash, entries, request, intent, search, filterModel);
            ((forall e :: e in o.trace ==> !e.CacheWrite?) ==> o.entries == entries) &&
            (forall k :: k in o.entries && (k !in entries || o.entries[k] != entries[k]) ==>
               CacheWrite(k) in o.trace && o.response.Found? && o.entries[k] == Entry(o.response.listing, DefaultTtl))
  {
    var userKey := UserKey(hash, request);
    if userKey !in entries {
      var calls := intent(request.query, request.isFetchPairing);
      match FirstNamed(calls, FetchProductsTool)
      case None =>
      case Some(i) =>
        var query := calls[i].arguments;
        var bound := EffectiveBound(request);
        var gptKey := CacheKey(hash, query, bound);
        var writtenKey := CacheKey(hash, request.query, bound);
        ActOnQueryStore(entries, request.isFetchPairing, query, bound, gptKey, writtenKey,
                        FetchSpec(search(query, bound), bound), filterModel);
        var a := AfterIntent(hash, entries, request, query, search, filterModel);
        var o := SearchSpec(hash, entries, request, intent, search, filterModel);
        var t1 := [CacheRead(userKey), AskIntent(request.query, request.isFetchPairing)];
        assert o.entries == a.entries && o.trace == t1 + a.trace;
        assert forall e :: e in a.trace ==> e in o.trace;
    }
  }

  /** A path that writes leaves its listing under the user's key. */
  lemma ActOnQueryWriteThenHit(entries: map<string, Entry<Listing>>, pairing: bool, query: string, bound: int,
                               gptKey: string, userKey: string, fetched: Result<seq<Product>, FetchError>,
                               filterModel: FilterModel)
    requires exists e :: e in ActOnQuery(entries, pairing, query, bound, gptKey, userKey, fetched, filterModel).trace
                         && e.CacheWrite?
    ensures var o := ActOnQuery(entries, pairing, query, bound, gptKey, userKey, fetched, filterModel);
            userKey in o.entries && o.response == Found(o.entries[userKey].value)
  {
  }

  /**
   * A plain search that wrote its listing is answered from the cache when it
   * is repeated: same response, nothing written, no external call, whatever
   * the oracles answer the second time.
   */
  lemma RepeatedSearchHitsCache(hash: Hasher, entries: map<string, Entry<Listing>>, request: SearchRequest,
                                intent: IntentModel, search: SearchService, filterModel: FilterModel,
                                intent2: IntentModel, search2: SearchService, filterModel2: FilterModel)
    requires !request.isFetchPairing
    requires exists e :: e in SearchSpec(hash, entries, request, intent, search, filterModel).trace && e.CacheWrite?
    ensures var o1 := SearchSpec(hash, entries, request, intent, search, filterModel);
            SearchSpec(hash, o1.entries, request, intent2, search2, filterModel2)
              == Outcome(o1.response, o1.entries, [CacheRead(CacheKey(hash, request.query, request.maxNumProducts))])
  {
    var userKey := UserKey(hash, request);
    if userKey !in entries {
      var calls := intent(request.query, request.isFetchPairing);
      match FirstNamed(calls, FetchProductsTool)
      case None =>
      case Some(i) =>
        var query := calls[i].arguments;
        var bound := EffectiveBound(request);
        var a := AfterIntent(hash, entries, request, query, search, filterModel);
        var t1 := [CacheRead(userKey), AskIntent(request.query, request.isFetchPairing)];
        var w :| w in t1 + a.trace && w.CacheWrite?;
        assert w in a.trace;
        ActOnQueryWriteThenHit(entries, request.isFetchPairing, query, bound,
                               CacheKey(hash, query, bound), CacheKey(hash, request.query, bound),
                               FetchSpec(search(query, bound), bound), filterModel);
        UserKeyHit(hash, a.entries, request, intent2, search2, filterModel2);
    }
  }
}
