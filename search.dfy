/**
 * The search popover (`Search` in src/components/Search.tsx): a query box and four bound boxes
 * whose effect filters the store's products or orders into a result list of its own.
 */
module Search {
  import opened Wrappers
  import opened Text
  import opened Seqs
  import opened Context

  /** The five text boxes: query, price bounds, quantity bounds. */
  datatype SearchInput = SearchInput(
    query: string, minPrice: string, maxPrice: string, minQuantity: string, maxQuantity: string)

  /** One entry of the result list. */
  datatype Hit = ProductHit(product: Product) | OrderHit(order: Order)

  /** The effect searches when the trimmed query or any bound box is non-empty. */
  predicate SearchActive(input: SearchInput) {
    Trim(input.query) != "" || input.minPrice != "" || input.maxPrice != ""
    || input.minQuantity != "" || input.maxQuantity != ""
  }

  /** `box === "" || v >= parse(box)`: a box that does not parse (`NaN`) fails the comparison. */
  predicate MinOk(v: int, box: string) {
    box == "" || (ParseNumber(box).Some? && v >= ParseNumber(box).value)
  }

  /** `box === "" || v <= parse(box)`. */
  predicate MaxOk(v: int, box: string) {
    box == "" || (ParseNumber(box).Some? && v <= ParseNumber(box).value)
  }

  /** Blank query, or the query in the lower-cased name or description, or in the price's digits. */
  predicate ProductQueryMatch(p: Product, query: string) {
    || Trim(query) == ""
    || Contains(ToLower(p.name), ToLower(query))
    || Contains(ToLower(p.description), ToLower(query))
    || Contains(IntToString(p.price), query)
  }

  /** The product test: query match, price bounds and quantity bounds. */
  predicate ProductFound(p: Product, input: SearchInput) {
    && ProductQueryMatch(p, input.query)
    && MinOk(p.price, input.minPrice) && MaxOk(p.price, input.maxPrice)
    && MinOk(p.quantity, input.minQuantity) && MaxOk(p.quantity, input.maxQuantity)
  }

  /** Blank query, or the query in the lower-cased customer name or in the order id. */
  predicate OrderNameOrIdMatch(o: Order, query: string) {
    Trim(query) == "" || Contains(ToLower(o.customerName), ToLower(query)) || Contains(o.id, query)
  }

  /**
   * The total check as written: `blank || total includes query || (min ok && max ok)`.
   * Since `&&` binds tighter than `||`, the bounds only matter when the query is neither blank
   * nor part of the total's digits.
   */
  predicate OrderPriceMatch(o: Order, input: SearchInput) {
    || Trim(input.query) == ""
    || Contains(IntToString(o.totalAmount), input.query)
    || (MinOk(o.totalAmount, input.minPrice) && MaxOk(o.totalAmount, input.maxPrice))
  }

  /** The order test: (name or id match, or some line item's name match) and the total check. */
  predicate OrderFound(o: Order, input: SearchInput) {
    (OrderNameOrIdMatch(o, input.query) || SomeItemNameContains(o, ToLower(input.query)))
    && OrderPriceMatch(o, input)
  }

  function ProductFoundTest(input: SearchInput): Product -> bool {
    (p: Product) => ProductFound(p, input)
  }

  function OrderFoundTest(input: SearchInput): Order -> bool {
    (o: Order) => OrderFound(o, input)
  }

  function ProductHits(ps: seq<Product>): (r: seq<Hit>)
    ensures |r| == |ps| && forall i :: 0 <= i < |ps| ==> r[i] == ProductHit(ps[i])
  {
    seq(|ps|, i requires 0 <= i < |ps| => ProductHit(ps[i]))
  }

  function OrderHits(os: seq<Order>): (r: seq<Hit>)
    ensures |r| == |os| && forall i :: 0 <= i < |os| ==> r[i] == OrderHit(os[i])
  {
    seq(|os|, i requires 0 <= i < |os| => OrderHit(os[i]))
  }

  /** What the effect stores as the result list. */
  function Results(kind: CollectionType, input: SearchInput, products: seq<Product>, orders: seq<Order>): seq<Hit> {
    if !SearchActive(input) then []
    else if kind == ProductsType then ProductHits(Filter(products, ProductFoundTest(input)))
    else OrderHits(Filter(orders, OrderFoundTest(input)))
  }

  /** With a blank query and four empty bound boxes there are no results. */
  lemma NoSearchNoResults(kind: CollectionType, input: SearchInput, products: seq<Product>, orders: seq<Order>)
    requires IsBlank(input.query)
    requires input.minPrice == "" && input.maxPrice == "" && input.minQuantity == "" && input.maxQuantity == ""
    ensures Results(kind, input, products, orders) == []
  {
    TrimEmptyIffBlank(input.query);
  }

  lemma ProductHitsMembership(ps: seq<Product>, p: Product)
    ensures ProductHit(p) in ProductHits(ps) <==> p in ps
  {
    if p in ps {
      var i :| 0 <= i < |ps| && ps[i] == p;
      assert ProductHits(ps)[i] == ProductHit(p);
    }
  }

  lemma OrderHitsMembership(os: seq<Order>, o: Order)
    ensures OrderHit(o) in OrderHits(os) <==> o in os
  {
    if o in os {
      var i :| 0 <= i < |os| && os[i] == o;
      assert OrderHits(os)[i] == OrderHit(o);
    }
  }

  /**
   * On the products tab an active search lists a product exactly when it is in the catalogue and
   * passes the query, price and quantity tests; it never lists an order.
   */
  lemma ProductResultsSpec(input: SearchInput, products: seq<Product>, orders: seq<Order>, p: Product, o: Order)
    requires SearchActive(input)
    ensures ProductHit(p) in Results(ProductsType, input, products, orders) <==> p in products && ProductFound(p, input)
    ensures OrderHit(o) !in Results(ProductsType, input, products, orders)
  {
    var kept := Filter(products, ProductFoundTest(input));
    ProductHitsMembership(kept, p);
    FilterMultiplicity(products, ProductFoundTest(input), p);
    assert p in kept <==> multiset(kept)[p] > 0;
  }

  /**
   * On the orders tab an active search lists an order exactly when it is stored and passes the
   * name, item-name and total tests; it never lists a product.
   */
  lemma OrderResultsSpec(input: SearchInput, products: seq<Product>, orders: seq<Order>, p: Product, o: Order)
    requires SearchActive(input)
    ensures OrderHit(o) in Results(OrdersType, input, products, orders) <==> o in orders && OrderFound(o, input)
    ensures ProductHit(p) !in Results(OrdersType, input, products, orders)
  {
    var kept := Filter(orders, OrderFoundTest(input));
    OrderHitsMembership(kept, o);
    FilterMultiplicity(orders, OrderFoundTest(input), o);
    assert o in kept <==> multiset(kept)[o] > 0;
  }

  /**
   * The results keep the store's order: searching a list split in two gives the results of
   * the first part followed by those of the second.
   */
  lemma ResultsKeepOrder(kind: CollectionType, input: SearchInput,
                         ps1: seq<Product>, ps2: seq<Product>, os1: seq<Order>, os2: seq<Order>)
    ensures kind == ProductsType ==>
      Results(kind, input, ps1 + ps2, os1) == Results(kind, input, ps1, os1) + Results(kind, input, ps2, os1)
    ensures kind == OrdersType ==>
      Results(kind, input, ps1, os1 + os2) == Results(kind, input, ps1, os1) + Results(kind, input, ps1, os2)
  {
    if kind == ProductsType {
      FilterConcat(ps1, ps2, ProductFoundTest(input));
      ProductHitsConcat(Filter(ps1, ProductFoundTest(input)), Filter(ps2, ProductFoundTest(input)));
    } else {
      FilterConcat(os1, os2, OrderFoundTest(input));
      OrderHitsConcat(Filter(os1, OrderFoundTest(input)), Filter(os2, OrderFoundTest(input)));
    }
  }

  lemma ProductHitsConcat(a: seq<Product>, b: seq<Product>)
    ensures ProductHits(a + b) == ProductHits(a) + ProductHits(b)
  {
  }

  lemma OrderHitsConcat(a: seq<Order>, b: seq<Order>)
    ensures OrderHits(a + b) == OrderHits(a) + OrderHits(b)
  {
  }

  /** With a blank query the total check passes whatever the price boxes say. */
  lemma OrderPriceBlankQueryPasses(o: Order, input: SearchInput)
    requires IsBlank(input.query)
    ensures OrderPriceMatch(o, input)
  {
    TrimEmptyIffBlank(input.query);
  }

  /**
   * An order whose id and total both contain the query is found even when its total lies above
   * the maximum price; a product above the maximum price is never found.
   */
  lemma OrderPriceBoundsBypassed(o: Order, p: Product, input: SearchInput, max: int)
    requires Contains(o.id, input.query) && Contains(IntToString(o.totalAmount), input.query)
    requires ParseNumber(input.maxPrice) == Some(max) && o.totalAmount > max && p.price > max
    ensures !MaxOk(o.totalAmount, input.maxPrice)
    ensures OrderFound(o, input)
    ensures !ProductFound(p, input)
  {
  }

  /** The quantity boxes take no part in the order test. */
  lemma OrderFoundIgnoresQuantity(o: Order, input: SearchInput, minQuantity: string, maxQuantity: string)
    ensures OrderFound(o, input.(minQuantity := minQuantity, maxQuantity := maxQuantity)) == OrderFound(o, input)
  {
  }

  /**
   * They do open the effect, though: on the orders tab a quantity bound alone, with a blank query
   * and empty price boxes, lists every order.
   */
  lemma LoneQuantityBoundListsAllOrders(input: SearchInput, products: seq<Product>, orders: seq<Order>)
    requires IsBlank(input.query) && input.minPrice == "" && input.maxPrice == ""
    requires input.minQuantity != "" || input.maxQuantity != ""
    ensures Results(OrdersType, input, products, orders) == OrderHits(orders)
  {
    TrimEmptyIffBlank(input.query);
    forall i | 0 <= i < |orders| ensures OrderFoundTest(input)(orders[i]) {
      assert OrderNameOrIdMatch(orders[i], input.query);
    }
    FilterKeepsAll(orders, OrderFoundTest(input));
  }

  class SearchBox {
    /** Which collection this box searches. */
    const kind: CollectionType
    var query: string
    var minPrice: string
    var maxPrice: string
    var minQuantity: string
    var maxQuantity: string
    var searchResults: seq<Hit>

    constructor (kind: CollectionType)
      ensures this.kind == kind
      ensures query == "" && minPrice == "" && maxPrice == "" && minQuantity == "" && maxQuantity == ""
      ensures searchResults == []
    {
      this.kind := kind;
      query := "";
      minPrice := "";
      maxPrice := "";
      minQuantity := "";
      maxQuantity := "";
      searchResults := [];
    }

    function Input(): SearchInput
      reads this
    {
      SearchInput(query, minPrice, maxPrice, minQuantity, maxQuantity)
    }

    /** The effect, run after any box or the store's lists change. */
    method Refresh(store: AppStore)
      modifies this`searchResults
      ensures searchResults == Results(kind, Input(), store.products, store.orders)
    {
      if SearchActive(Input()) {
        var results: seq<Hit>;
        if kind == ProductsType {
          results := ProductHits(Filter(store.products, ProductFoundTest(Input())));
        } else {
          results := OrderHits(Filter(store.orders, OrderFoundTest(Input())));
        }
        searchResults := results;
      } else {
        searchResults := [];
      }
    }

    method SetQuery(value: string)
      modifies this`query
      ensures query == value
    {
      query := value;
    }

    /** `clearFilters`: the four bound boxes are emptied; the query stays. */
    method ClearFilters()
      modifies this`minPrice, this`maxPrice, this`minQuantity, this`maxQuantity
      ensures minPrice == "" && maxPrice == "" && minQuantity == "" && maxQuantity == ""
      ensures query == old(query)
    {
      minPrice := "";
      maxPrice := "";
      minQuantity := "";
      maxQuantity := "";
    }

    /** `handleItemClick`: the result list and the query are emptied. */
    method HandleItemClick(id: string)
      modifies this`searchResults, this`query
      ensures searchResults == [] && query == ""
    {
      searchResults := [];
      query := "";
    }
  }
}
