/**
 * The filter summary `extract_filters`: the language model's tool calls are
 * an input; the first call named `extract_filters` supplies the four facet
 * lists verbatim, and the price bounds are computed from the products alone.
 */
module Filters {
  import opened Wrappers
  import opened ToolCalls
  import opened ProductSearch

  const ExtractFiltersTool: string := "extract_filters"

  /** The decoded arguments of an `extract_filters` call. */
  datatype FilterArgs = FilterArgs(
    brands: seq<string>,
    colors: seq<string>,
    types: seq<string>,
    materials: seq<string>)

  datatype FilterSummary = FilterSummary(
    brands: seq<string>,
    colors: seq<string>,
    types: seq<string>,
    materials: seq<string>,
    minPrice: real,
    maxPrice: real)

  /** The summary returned when the model makes no `extract_filters` call. */
  const EmptySummary := FilterSummary([], [], [], [], 0.0, 0.0)

  /** `[p["name"] for p in products]`: what the model is shown. */
  function ProductNames(products: seq<Product>): seq<Option<string>> {
    seq(|products|, i requires 0 <= i < |products| => products[i].name)
  }

  /** The numeric prices of the products, in order (`None` prices are skipped). */
  function NumericPrices(products: seq<Product>): (prices: seq<real>)
    ensures |prices| <= |products|
    ensures forall i :: 0 <= i < |products| && products[i].price.Some? ==> products[i].price.value in prices
    ensures forall x :: x in prices ==> exists i :: 0 <= i < |products| && products[i].price == Some(x)
  {
    if |products| == 0 then []
    else
      var rest := NumericPrices(products[1..]);
      assert forall i :: 1 <= i < |products| ==> products[i] == products[1..][i - 1];
      match products[0].price
      case Some(v) => [v] + rest
      case None => rest
  }

  /** Python's `min` of a non-empty list of numbers. */
  function Min(s: seq<real>): (m: real)
    requires |s| > 0
    ensures m in s
    ensures forall x :: x in s ==> m <= x
  {
    if |s| == 1 then s[0]
    else
      var rest := Min(s[1..]);
      assert forall x :: x in s ==> x == s[0] || x in s[1..];
      if s[0] <= rest then s[0] else rest
  }

  /** Python's `max` of a non-empty list of numbers. */
  function Max(s: seq<real>): (m: real)
    requires |s| > 0
    ensures m in s
    ensures forall x :: x in s ==> x <= m
  {
    if |s| == 1 then s[0]
    else
      var rest := Max(s[1..]);
      assert forall x :: x in s ==> x == s[0] || x in s[1..];
      if s[0] >= rest then s[0] else rest
  }

  /** `min(valid_prices) if valid_prices else 0` and the same for `max`. */
  function PriceBounds(products: seq<Product>): (real, real) {
    var prices := NumericPrices(products);
    if |prices| == 0 then (0.0, 0.0) else (Min(prices), Max(prices))
  }

  /** `extract_filters(products)`, given the tool calls of the model's reply. */
  function ExtractFilters(products: seq<Product>, calls: seq<ToolCall<FilterArgs>>): FilterSummary {
    match FirstNamed(calls, ExtractFiltersTool)
    case None => EmptySummary
    case Some(i) =>
      var args := calls[i].arguments;
      var bounds := PriceBounds(products);
      FilterSummary(args.brands, args.colors, args.types, args.materials, bounds.0, bounds.1)
  }

  /**
   * The names shown to the model are the titles of the kept search results,
   * one per product, in order (`None` where a result has no title).
   */
  lemma ShownNamesAreTitles(reply: UpstreamReply, maxResults: int, i: nat)
    requires FetchSpec(reply, maxResults).Success?
    requires i < |FetchSpec(reply, maxResults).value|
    ensures var names := ProductNames(FetchSpec(reply, maxResults).value);
            var results := reply.shoppingResults.GetOr([]);
            |names| == |FetchSpec(reply, maxResults).value| &&
            i < |results| && names[i] == Field(results[i], "title")
  {
    FetchFieldMapping(reply, maxResults, i);
  }

  /** Without an `extract_filters` call: four empty lists and both bounds 0. */
  lemma NoFilterCallFallback(products: seq<Product>, calls: seq<ToolCall<FilterArgs>>)
    requires forall j :: 0 <= j < |calls| ==> calls[j].name != ExtractFiltersTool
    ensures ExtractFilters(products, calls) == FilterSummary([], [], [], [], 0.0, 0.0)
  {
  }

  /**
   * Only the first `extract_filters` call counts: its four lists are passed
   * through unchanged (no dedup, no filtering), whatever later calls say, and
   * the bounds are those of the products.
   */
  lemma FirstFilterCallUsed(products: seq<Product>, calls: seq<ToolCall<FilterArgs>>, i: nat)
    requires i < |calls| && calls[i].name == ExtractFiltersTool
    requires forall j :: 0 <= j < i ==> calls[j].name != ExtractFiltersTool
    ensures var f := ExtractFilters(products, calls);
            var args := calls[i].arguments;
            f.brands == args.brands && f.colors == args.colors &&
            f.types == args.types && f.materials == args.materials &&
            (f.minPrice, f.maxPrice) == PriceBounds(products)
  {
    FirstNamedAt(calls, ExtractFiltersTool, i);
  }

  /**
   * The price bounds: 0 and 0 when no product has a numeric price; otherwise
   * ordered, both attained by some product, and enclosing every numeric price.
   */
  lemma PriceBoundsSpec(products: seq<Product>)
    ensures var (lo, hi) := PriceBounds(products);
            ((forall i :: 0 <= i < |products| ==> products[i].price.None?) ==> lo == 0.0 && hi == 0.0) &&
            ((exists i :: 0 <= i < |products| && products[i].price.Some?) ==>
              lo <= hi &&
              (exists i :: 0 <= i < |products| && products[i].price == Some(lo)) &&
              (exists i :: 0 <= i < |products| && products[i].price == Some(hi)) &&
              (forall i :: 0 <= i < |products| && products[i].price.Some? ==>
                 lo <= products[i].price.value <= hi))
  {
  }

  /** The bounds do not depend on the model's reply, as long as it calls `extract_filters`. */
  lemma BoundsIgnoreModel(products: seq<Product>, c1: seq<ToolCall<FilterArgs>>, c2: seq<ToolCall<FilterArgs>>)
    requires exists j :: 0 <= j < |c1| && c1[j].name == ExtractFiltersTool
    requires exists j :: 0 <= j < |c2| && c2[j].name == ExtractFiltersTool
    ensures ExtractFilters(products, c1).minPrice == ExtractFilters(products, c2).minPrice
    ensures ExtractFilters(products, c1).maxPrice == ExtractFilters(products, c2).maxPrice
  {
  }

  /** Prices 29.99, none and 79.99 give the bounds 29.99 and 79.99. */
  lemma BoundsExample(a: Product, b: Product, c: Product)
    requires a.price == Some(29.99) && b.price == None && c.price == Some(79.99)
    ensures PriceBounds([a, b, c]) == (29.99, 79.99)
  {
    var ps := [a, b, c];
    assert ps[1..] == [b, c] && [b, c][1..] == [c] && [c][1..] == [];
    assert NumericPrices([c]) == [79.99];
    assert NumericPrices([b, c]) == [79.99];
    assert NumericPrices(ps) == [29.99, 79.99];
    var prices := [29.99, 79.99];
    assert prices[1..] == [79.99];
    assert Min(prices) == 29.99 && Max(prices) == 79.99;
  }
}
