/**
 * The product normaliser `fetch_products`: the reply of the shopping-search
 * service (its HTTP status and its `shopping_results` records) is an input;
 * the records are truncated to the requested bound and each is mapped to a
 * product whose price is scanned out of the free-form price text.
 */
module ProductSearch {
  import opened Wrappers
  import opened PriceScan

  /** A raw `shopping_results` record: its string-valued keys. */
  type RawItem = map<string, string>

  /** What the search service answered: the status and, if present, `shopping_results`. */
  datatype UpstreamReply = UpstreamReply(status: int, shoppingResults: Option<seq<RawItem>>)

  /** The canonical product; `None` where the record lacks the key or the price text has no number. */
  datatype Product = Product(
    name: Option<string>,
    shop: Option<string>,
    price: Option<real>,
    sourceUrl: Option<string>,
    imageUrl: Option<string>)

  /** Why the normaliser raises: a non-200 status (HTTP 500), or a price match `float` rejects. */
  datatype FetchError = UpstreamUnavailable | PriceNotANumber

  /** `item.get(key)`. */
  function Field(item: RawItem, key: string): Option<string> {
    if key in item then Some(item[key]) else None
  }

  /** `item.get("price", "")`. */
  function PriceText(item: RawItem): string {
    if "price" in item then item["price"] else ""
  }

  function PriceOf(item: RawItem): ParsedPrice {
    ParsePrice(PriceText(item))
  }

  /** The number stored in the product for a parsed price (a failed conversion never reaches a product). */
  function Amount(p: ParsedPrice): Option<real> {
    if p.Price? then Some(p.value) else None
  }

  /** The record-to-product field mapping, given the record's parsed price. */
  function ToProduct(item: RawItem, price: ParsedPrice): Product {
    Product(
      Field(item, "title"),
      Field(item, "source"),
      Amount(price),
      Field(item, "product_link"),
      Field(item, "thumbnail"))
  }

  /** Length of the Python slice `l[:n]` of a list of length `len`. */
  function SliceLength(len: nat, n: int): (k: nat)
    ensures k <= len
  {
    if n >= 0 then (if n < len then n else len)
    else if len + n > 0 then len + n
    else 0
  }

  /** `data.get("shopping_results", [])[:max_results]`. */
  function Truncated(reply: UpstreamReply, maxResults: int): seq<RawItem> {
    var results := reply.shoppingResults.GetOr([]);
    results[..SliceLength(|results|, maxResults)]
  }

  /** The parsed price of every kept record. */
  function PricesOf(items: seq<RawItem>): seq<ParsedPrice> {
    seq(|items|, i requires 0 <= i < |items| => PriceOf(items[i]))
  }

  /**
   * The loop over the kept records, each with its parsed price: the products
   * built so far, or the error of the first record whose price match `float`
   * rejects.
   */
  function Build(items: seq<RawItem>, prices: seq<ParsedPrice>): (r: Result<seq<Product>, FetchError>)
    requires |prices| == |items|
    ensures r.Failure? ==> r.error == PriceNotANumber
    decreases |items|
  {
    if |items| == 0 then Success([])
    else
      var n := |items| - 1;
      match Build(items[..n], prices[..n])
      case Failure(e) => Failure(e)
      case Success(products) =>
        if prices[n].NotANumber? then Failure(PriceNotANumber)
        else Success(products + [ToProduct(items[n], prices[n])])
  }

  /** What `fetch_products` returns or raises for a reply of the search service. */
  function FetchSpec(reply: UpstreamReply, maxResults: int): Result<seq<Product>, FetchError> {
    if reply.status != 200 then Failure(UpstreamUnavailable)
    else
      var items := Truncated(reply, maxResults);
      Build(items, PricesOf(items))
  }

  /** A rejected price match makes the whole conversion fail. */
  lemma {:induction false} BuildFailsAt(items: seq<RawItem>, prices: seq<ParsedPrice>, w: nat)
    requires |prices| == |items|
    requires w < |items| && prices[w].NotANumber?
    ensures Build(items, prices).Failure?
    decreases |items|
  {
    var n := |items| - 1;
    if w < n {
      assert prices[..n][w] == prices[w];
      BuildFailsAt(items[..n], prices[..n], w);
    }
  }

  /** Without a rejected price match the conversion succeeds. */
  lemma {:induction false} BuildSucceeds(items: seq<RawItem>, prices: seq<ParsedPrice>)
    requires |prices| == |items|
    requires forall i :: 0 <= i < |prices| ==> !prices[i].NotANumber?
    ensures Build(items, prices).Success?
    decreases |items|
  {
    if |items| > 0 {
      var n := |items| - 1;
      assert forall i :: 0 <= i < n ==> prices[..n][i] == prices[i];
      BuildSucceeds(items[..n], prices[..n]);
    }
  }

  /** The conversion fails exactly when some price match is rejected. */
  lemma BuildFails(items: seq<RawItem>, prices: seq<ParsedPrice>)
    requires |prices| == |items|
    ensures Build(items, prices).Failure? <==> exists i :: 0 <= i < |prices| && prices[i].NotANumber?
  {
    if exists i :: 0 <= i < |prices| && prices[i].NotANumber? {
      var w :| 0 <= w < |prices| && prices[w].NotANumber?;
      BuildFailsAt(items, prices, w);
    } else {
      BuildSucceeds(items, prices);
    }
  }

  /** A successful conversion keeps every record, in order: product `i` is built from record `i`. */
  lemma {:induction false} BuildKeepsOrder(items: seq<RawItem>, prices: seq<ParsedPrice>)
    requires |prices| == |items|
    requires Build(items, prices).Success?
    ensures |Build(items, prices).value| == |items|
    ensures forall i :: 0 <= i < |items| ==> Build(items, prices).value[i] == ToProduct(items[i], prices[i])
    decreases |items|
  {
    if |items| > 0 {
      var n := |items| - 1;
      var init := items[..n];
      var initPrices := prices[..n];
      assert Build(init, initPrices).Success?;
      BuildKeepsOrder(init, initPrices);
      var products := Build(init, initPrices).value;
      assert Build(items, prices).value == products + [ToProduct(items[n], prices[n])];
      forall i | 0 <= i < n
        ensures Build(items, prices).value[i] == ToProduct(items[i], prices[i])
      {
        assert init[i] == items[i] && initPrices[i] == prices[i];
      }
    }
  }

  /** Once a prefix of the records fails to convert, the whole list fails the same way. */
  lemma {:induction false} BuildPrefixFailure(items: seq<RawItem>, prices: seq<ParsedPrice>, j: nat)
    requires |prices| == |items|
    requires j <= |items| && Build(items[..j], prices[..j]).Failure?
    ensures Build(items, prices) == Build(items[..j], prices[..j])
    decreases |items| - j
  {
    if j < |items| {
      var next := items[..j + 1];
      var nextPrices := prices[..j + 1];
      assert next[..j] == items[..j] && nextPrices[..j] == prices[..j];
      BuildPrefixFailure(items, prices, j + 1);
    } else {
      assert items[..j] == items && prices[..j] == prices;
    }
  }

  /** `fetch_products(query, max_results)`, with the HTTP call replaced by its reply. */
  method FetchProducts(reply: UpstreamReply, maxResults: int := 10)
    returns (r: Result<seq<Product>, FetchError>)
    ensures r == FetchSpec(reply, maxResults)
  {
    if reply.status != 200 {
      return Failure(UpstreamUnavailable);
    }
    var items := Truncated(reply, maxResults);
    ghost var prices := PricesOf(items);
    var products: seq<Product> := [];
    var i := 0;
    while i < |items|
      invariant 0 <= i <= |items|
      invariant Build(items[..i], prices[..i]) == Success(products)
    {
      var price := PriceOf(items[i]);
      assert price == prices[i];
      assert items[..i + 1][..i] == items[..i] && prices[..i + 1][..i] == prices[..i];
      if price.NotANumber? {
        BuildPrefixFailure(items, prices, i + 1);
        return Failure(PriceNotANumber);
      }
      products := products + [ToProduct(items[i], price)];
      i := i + 1;
    }
    assert items[..i] == items && prices[..i] == prices;
    return Success(products);
  }

  /**
   * Truncation: never more products than results; for a non-negative bound
   * exactly `min(|results|, bound)`; a negative bound drops that many results
   * from the end, as a Python slice does.
   */
  lemma FetchLength(reply: UpstreamReply, maxResults: int)
    requires FetchSpec(reply, maxResults).Success?
    ensures var n := |FetchSpec(reply, maxResults).value|;
            var len := |reply.shoppingResults.GetOr([])|;
            n <= len &&
            (maxResults >= 0 ==> n <= maxResults && n == (if maxResults < len then maxResults else len)) &&
            (maxResults < 0 ==> n == (if len + maxResults > 0 then len + maxResults else 0))
  {
    var items := Truncated(reply, maxResults);
    BuildKeepsOrder(items, PricesOf(items));
  }

  /**
   * Order and field mapping: product `i` is built from raw result `i`; title,
   * source, product_link and thumbnail are copied (`None` when missing); the
   * price is the parsed number of the price text (a missing key reads as "").
   */
  lemma FetchFieldMapping(reply: UpstreamReply, maxResults: int, i: nat)
    requires FetchSpec(reply, maxResults).Success?
    requires i < |FetchSpec(reply, maxResults).value|
    ensures var results := reply.shoppingResults.GetOr([]);
            var p := FetchSpec(reply, maxResults).value[i];
            i < |results| &&
            p.name == Field(results[i], "title") &&
            p.shop == Field(results[i], "source") &&
            p.sourceUrl == Field(results[i], "product_link") &&
            p.imageUrl == Field(results[i], "thumbnail") &&
            (ParsePrice(PriceText(results[i])).Price? ==> p.price == Some(ParsePrice(PriceText(results[i])).value)) &&
            (ParsePrice(PriceText(results[i])) == NoPrice ==> p.price == None)
  {
    var items := Truncated(reply, maxResults);
    BuildKeepsOrder(items, PricesOf(items));
  }

  /**
   * The three outcomes of each record's price scan: no price exactly when its
   * price text has no digit and no comma; a rejected conversion exactly when
   * the leftmost match holds no digit; otherwise a non-negative number.
   */
  lemma PricesOfOutcomes(items: seq<RawItem>, i: nat)
    requires i < |items|
    ensures var p := PricesOf(items)[i];
            var text := PriceText(items[i]);
            (p == NoPrice <==> forall k :: 0 <= k < |text| ==> !IsDigitOrComma(text[k])) &&
            (p == NotANumber <==> MatchHasNoDigit(text)) &&
            (p.Price? ==> p.value >= 0.0)
  {
    ParsePriceOutcomes(PriceText(items[i]));
  }

  /** A record without a price key gets no price, and never makes the conversion fail. */
  lemma MissingPriceKey(item: RawItem)
    requires "price" !in item
    ensures PriceOf(item) == NoPrice && ToProduct(item, PriceOf(item)).price == None
  {
    ParsePriceNoNumberExamples();
  }

  /**
   * The error paths: a non-200 status raises the upstream error; with status
   * 200 the call fails exactly when one of the kept records has a price text
   * whose leftmost match holds no digit; no partial list is ever returned.
   */
  lemma FetchOutcomes(reply: UpstreamReply, maxResults: int)
    ensures reply.status != 200 ==> FetchSpec(reply, maxResults) == Failure(UpstreamUnavailable)
    ensures reply.status == 200 ==>
              (FetchSpec(reply, maxResults) == Failure(PriceNotANumber) <==>
               exists i :: 0 <= i < |Truncated(reply, maxResults)| &&
                 MatchHasNoDigit(PriceText(Truncated(reply, maxResults)[i])))
    ensures reply.status == 200 && reply.shoppingResults.None? ==> FetchSpec(reply, maxResults) == Success([])
  {
    var items := Truncated(reply, maxResults);
    if reply.status == 200 {
      var prices := PricesOf(items);
      BuildFails(items, prices);
      forall i | 0 <= i < |items|
        ensures prices[i].NotANumber? <==> MatchHasNoDigit(PriceText(items[i]))
      {
        ParsePriceOutcomes(PriceText(items[i]));
      }
      if reply.shoppingResults.None? {
        assert items == [];
      }
    }
  }
}
