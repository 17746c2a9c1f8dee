/**
 * The application store (`AppProvider` in src/lib/context.tsx): the product and order
 * lists, theme, settings, search filters and sort option; the mutators that rebuild the
 * lists by id; and the filtered, sorted views the pages display.
 */
module Context {
  import opened Wrappers
  import opened Text
  import opened Seqs
  import opened Sorting

  datatype Product = Product(
    id: string, name: string, price: int, quantity: int, description: string, image: Option<string>)

  /** One line of an order: a denormalised copy of a product's name and price. */
  datatype LineItem = LineItem(productId: string, name: string, quantity: int, price: int)

  datatype Order = Order(
    id: string, customerName: string, date: string, status: string,
    phoneNumber: Option<string>, description: Option<string>, image: Option<string>,
    products: seq<LineItem>, totalAmount: int)

  datatype Theme = Light | Dark

  /** Which collection the search filters apply to. */
  datatype CollectionType = ProductsType | OrdersType

  /** A bound is `None` when the field is `undefined`. */
  datatype SearchFilters = SearchFilters(
    kind: CollectionType, query: string,
    minPrice: Option<int>, maxPrice: Option<int>,
    minQuantity: Option<int>, maxQuantity: Option<int>)

  datatype SortOption = Default | PriceLowToHigh | PriceHighToLow

  datatype Settings = Settings(showCurrencyConverter: bool)

  /** `Partial<Settings>`. */
  datatype SettingsPatch = SettingsPatch(showCurrencyConverter: Option<bool>)

  const InitialFilters: SearchFilters := SearchFilters(ProductsType, "", None, None, None, None)
  const DefaultSettings: Settings := Settings(true)

  // ---------------------------------------------------------------------------
  // Order status

  const InTransit: string := "в пути"
  const InStock: string := "на складе"

  /** The two statuses the store accepts. */
  predicate AllowedStatus(s: string) {
    s == InTransit || s == InStock
  }

  /** An allowed status is kept; anything else becomes "в пути". */
  function ValidStatus(s: string): string {
    if AllowedStatus(s) then s else InTransit
  }

  function WithValidStatus(o: Order): Order {
    o.(status := ValidStatus(o.status))
  }

  predicate AllStatusesAllowed(os: seq<Order>) {
    forall i :: 0 <= i < |os| ==> AllowedStatus(os[i].status)
  }

  /** The status repair applied to the orders read at start-up. */
  function NormalizeLoadedOrders(os: seq<Order>): seq<Order> {
    seq(|os|, i requires 0 <= i < |os| => WithValidStatus(os[i]))
  }

  /** After loading every status is allowed, only statuses changed, and a second pass changes nothing. */
  lemma LoadedOrdersNormalized(os: seq<Order>)
    ensures AllStatusesAllowed(NormalizeLoadedOrders(os))
    ensures |NormalizeLoadedOrders(os)| == |os|
    ensures forall i :: 0 <= i < |os| ==>
      NormalizeLoadedOrders(os)[i] == os[i].(status := NormalizeLoadedOrders(os)[i].status)
    ensures forall i :: 0 <= i < |os| && AllowedStatus(os[i].status) ==>
      NormalizeLoadedOrders(os)[i] == os[i]
    ensures NormalizeLoadedOrders(NormalizeLoadedOrders(os)) == NormalizeLoadedOrders(os)
  {
  }

  // ---------------------------------------------------------------------------
  // Product list rebuilds

  function ProductIdIs(id: string): Product -> bool {
    (p: Product) => p.id == id
  }

  function ProductIdIsNot(id: string): Product -> bool {
    (p: Product) => p.id != id
  }

  /** `addProduct`: the new product, with its fresh id, goes at the end. */
  function AppendProduct(ps: seq<Product>, data: Product, newId: string): seq<Product> {
    ps + [data.(id := newId)]
  }

  /** `updateProduct`: every product with the updated product's id is replaced by it. */
  function ReplaceProduct(ps: seq<Product>, updated: Product): seq<Product> {
    UpdateWhere(ps, ProductIdIs(updated.id), _ => updated)
  }

  /** `deleteProduct`. */
  function RemoveProduct(ps: seq<Product>, id: string): seq<Product> {
    Filter(ps, ProductIdIsNot(id))
  }

  function Max(a: int, b: int): int {
    if a < b then b else a
  }

  function WithQuantityAdjusted(p: Product, change: int): Product {
    p.(quantity := Max(0, p.quantity + change))
  }

  /** `adjustQuantity`. */
  function AdjustQuantityIn(ps: seq<Product>, id: string, change: int): seq<Product> {
    UpdateWhere(ps, ProductIdIs(id), p => WithQuantityAdjusted(p, change))
  }

  /** `addProduct` keeps the old list as a prefix and adds exactly one product. */
  lemma AppendProductSpec(ps: seq<Product>, data: Product, newId: string)
    ensures |AppendProduct(ps, data, newId)| == |ps| + 1
    ensures AppendProduct(ps, data, newId)[..|ps|] == ps
    ensures AppendProduct(ps, data, newId)[|ps|] == data.(id := newId)
  {
  }

  /**
   * `adjustQuantity`: the matching products get quantity max(0, old + change), which is never
   * negative whatever the change; the others, the length and the order are untouched.
   */
  lemma AdjustQuantitySpec(ps: seq<Product>, id: string, change: int)
    ensures |AdjustQuantityIn(ps, id, change)| == |ps|
    ensures forall i :: 0 <= i < |ps| && ps[i].id == id ==>
      AdjustQuantityIn(ps, id, change)[i] == ps[i].(quantity := Max(0, ps[i].quantity + change))
      && AdjustQuantityIn(ps, id, change)[i].quantity >= 0
      && AdjustQuantityIn(ps, id, change)[i].quantity >= ps[i].quantity + change
    ensures forall i :: 0 <= i < |ps| && ps[i].id != id ==> AdjustQuantityIn(ps, id, change)[i] == ps[i]
  {
  }

  /** An id that is not in the list makes `adjustQuantity` and `updateProduct` no-ops. */
  lemma UnknownProductIdIsNoOp(ps: seq<Product>, id: string, change: int, updated: Product)
    requires forall i :: 0 <= i < |ps| ==> ps[i].id != id
    requires updated.id == id
    ensures AdjustQuantityIn(ps, id, change) == ps
    ensures ReplaceProduct(ps, updated) == ps
  {
    UpdateWhereNoMatch(ps, ProductIdIs(id), p => WithQuantityAdjusted(p, change));
    UpdateWhereNoMatch(ps, ProductIdIs(id), _ => updated);
  }

  /** `updateProduct`: only the products with that id change, and they become the update. */
  lemma ReplaceProductSpec(ps: seq<Product>, updated: Product)
    ensures |ReplaceProduct(ps, updated)| == |ps|
    ensures forall i :: 0 <= i < |ps| ==>
      ReplaceProduct(ps, updated)[i] == if ps[i].id == updated.id then updated else ps[i]
  {
  }

  /** Adding 10 chairs and taking 15 away leaves 0 chairs, not -5. */
  lemma ChairQuantityClampsAtZero()
    ensures AdjustQuantityIn([Product("1", "Chair", 5000, 10, "", None)], "1", -15)[0].quantity == 0
  {
  }

  /**
   * `deleteProduct` removes exactly the products with that id (every copy), keeps each other
   * product as often as it was there, in the same order, and deleting again changes nothing.
   */
  lemma RemoveProductSpec(ps: seq<Product>, id: string, p: Product)
    ensures multiset(RemoveProduct(ps, id))[p] == if p.id == id then 0 else multiset(ps)[p]
    ensures forall i :: 0 <= i < |RemoveProduct(ps, id)| ==> RemoveProduct(ps, id)[i].id != id
    ensures RemoveProduct(RemoveProduct(ps, id), id) == RemoveProduct(ps, id)
  {
    FilterMultiplicity(ps, ProductIdIsNot(id), p);
    FilterIdempotent(ps, ProductIdIsNot(id));
  }

  /** Deletion keeps the relative order: it distributes over any split of the list. */
  lemma RemoveProductKeepsOrder(a: seq<Product>, b: seq<Product>, id: string)
    ensures RemoveProduct(a + b, id) == RemoveProduct(a, id) + RemoveProduct(b, id)
  {
    FilterConcat(a, b, ProductIdIsNot(id));
  }

  // ---------------------------------------------------------------------------
  // Order list rebuilds

  function OrderIdIs(id: string): Order -> bool {
    (o: Order) => o.id == id
  }

  function OrderIdIsNot(id: string): Order -> bool {
    (o: Order) => o.id != id
  }

  /** `addOrder`: fresh id, status repaired, appended. */
  function AppendOrder(os: seq<Order>, data: Order, newId: string): seq<Order> {
    os + [data.(id := newId, status := ValidStatus(data.status))]
  }

  /** `updateOrder`: the orders with that id become the update, with its status repaired. */
  function ReplaceOrder(os: seq<Order>, updated: Order): seq<Order> {
    UpdateWhere(os, OrderIdIs(updated.id), _ => WithValidStatus(updated))
  }

  function WithStatus(status: string): Order -> Order {
    (o: Order) => o.(status := status)
  }

  /** `updateOrderStatus`: a status outside the allowed pair is refused. */
  function SetOrderStatus(os: seq<Order>, id: string, status: string): seq<Order> {
    if !AllowedStatus(status) then os
    else UpdateWhere(os, OrderIdIs(id), WithStatus(status))
  }

  /** `deleteOrder`. */
  function RemoveOrder(os: seq<Order>, id: string): seq<Order> {
    Filter(os, OrderIdIsNot(id))
  }

  /** `addOrder` stores an allowed status as given and any other as "в пути", copying every other field. */
  lemma AppendOrderSpec(os: seq<Order>, data: Order, newId: string)
    ensures |AppendOrder(os, data, newId)| == |os| + 1
    ensures AppendOrder(os, data, newId)[..|os|] == os
    ensures var stored := AppendOrder(os, data, newId)[|os|];
      stored.id == newId
      && (AllowedStatus(data.status) ==> stored.status == data.status)
      && (!AllowedStatus(data.status) ==> stored.status == InTransit)
      && stored == data.(id := newId, status := stored.status)
  {
  }

  /** `updateOrder` stores the update with its status repaired in place of the orders with that id. */
  lemma ReplaceOrderSpec(os: seq<Order>, updated: Order)
    ensures |ReplaceOrder(os, updated)| == |os|
    ensures forall i :: 0 <= i < |os| && os[i].id == updated.id ==>
      ReplaceOrder(os, updated)[i] == updated.(status := ValidStatus(updated.status))
      && AllowedStatus(ReplaceOrder(os, updated)[i].status)
      && (AllowedStatus(updated.status) ==> ReplaceOrder(os, updated)[i] == updated)
    ensures forall i :: 0 <= i < |os| && os[i].id != updated.id ==> ReplaceOrder(os, updated)[i] == os[i]
  {
  }

  /**
   * `updateOrderStatus`: a refused status leaves the orders exactly as they were; an allowed one
   * changes the status of the matching orders and nothing else.
   */
  lemma SetOrderStatusSpec(os: seq<Order>, id: string, status: string)
    ensures !AllowedStatus(status) ==> SetOrderStatus(os, id, status) == os
    ensures |SetOrderStatus(os, id, status)| == |os|
    ensures AllowedStatus(status) ==> forall i :: 0 <= i < |os| ==>
      SetOrderStatus(os, id, status)[i] == if os[i].id == id then os[i].(status := status) else os[i]
  {
  }

  /** The five labels the order card offers ("Новый" ... "Отменен") are all refused. */
  lemma OrderCardLabelsAreRefused(os: seq<Order>, id: string)
    ensures forall choice :: choice in ["Новый", "В обработке", "Отправлен", "Доставлен", "Отменен"] ==>
      !AllowedStatus(choice) && SetOrderStatus(os, id, choice) == os
  {
  }

  /** `deleteOrder` removes exactly the orders with that id and deleting again changes nothing. */
  lemma RemoveOrderSpec(os: seq<Order>, id: string, o: Order)
    ensures multiset(RemoveOrder(os, id))[o] == if o.id == id then 0 else multiset(os)[o]
    ensures RemoveOrder(RemoveOrder(os, id), id) == RemoveOrder(os, id)
    ensures RemoveOrder(os, id) == os <==> forall i :: 0 <= i < |os| ==> os[i].id != id
  {
    FilterMultiplicity(os, OrderIdIsNot(id), o);
    FilterIdempotent(os, OrderIdIsNot(id));
    if forall i :: 0 <= i < |os| ==> os[i].id != id {
      FilterKeepsAll(os, OrderIdIsNot(id));
    }
    if RemoveOrder(os, id) == os {
      forall i | 0 <= i < |os| ensures os[i].id != id {
        assert OrderIdIsNot(id)(RemoveOrder(os, id)[i]);
      }
    }
  }

  /** Every order mutation keeps all stored statuses inside the allowed pair. */
  lemma OrderMutationsKeepStatusesAllowed(os: seq<Order>, data: Order, newId: string, id: string, status: string)
    requires AllStatusesAllowed(os)
    ensures AllStatusesAllowed(AppendOrder(os, data, newId))
    ensures AllStatusesAllowed(ReplaceOrder(os, data))
    ensures AllStatusesAllowed(SetOrderStatus(os, id, status))
    ensures AllStatusesAllowed(RemoveOrder(os, id))
  {
  }

  // ---------------------------------------------------------------------------
  // Derived views: filteredProducts and filteredOrders

  predicate AtLeast(v: int, bound: Option<int>) {
    bound.None? || v >= bound.value
  }

  predicate AtMost(v: int, bound: Option<int>) {
    bound.None? || v <= bound.value
  }

  /** The product test: query match, price bounds, quantity bounds. */
  predicate ProductMatches(p: Product, f: SearchFilters) {
    var q := ToLower(f.query);
    && (|| Trim(f.query) == ""
        || Contains(ToLower(p.name), q)
        || Contains(ToLower(p.description), q)
        || Contains(IntToString(p.price), f.query))
    && AtLeast(p.price, f.minPrice) && AtMost(p.price, f.maxPrice)
    && AtLeast(p.quantity, f.minQuantity) && AtMost(p.quantity, f.maxQuantity)
  }

  /** Some line item's lower-cased name includes `q`. */
  predicate SomeItemNameContains(o: Order, q: string) {
    exists i | 0 <= i < |o.products| :: Contains(ToLower(o.products[i].name), q)
  }

  /** The order test: (customer name or id match, or a line-item name match) and total-amount bounds. */
  predicate OrderMatches(o: Order, f: SearchFilters) {
    var q := ToLower(f.query);
    var matchesNameOrId := Trim(f.query) == "" || Contains(ToLower(o.customerName), q) || Contains(o.id, f.query);
    var matchesProductNames := Trim(f.query) == "" || SomeItemNameContains(o, q);
    && (matchesNameOrId || matchesProductNames)
    && AtLeast(o.totalAmount, f.minPrice) && AtMost(o.totalAmount, f.maxPrice)
  }

  /** Filters for the other collection let every product through. */
  function ProductPasses(f: SearchFilters): Product -> bool {
    p => f.kind != ProductsType || ProductMatches(p, f)
  }

  function OrderPasses(f: SearchFilters): Order -> bool {
    o => f.kind != OrdersType || OrderMatches(o, f)
  }

  function PriceOf(p: Product): int {
    p.price
  }

  function TotalOf(o: Order): int {
    o.totalAmount
  }

  function Negated<T>(key: T -> int): T -> int {
    x => -key(x)
  }

  /** `applySorting`: "default" keeps the list; the price options sort by price (products) or total (orders). */
  function ApplySorting<T>(items: seq<T>, option: SortOption, price: T -> int): seq<T> {
    match option
    case Default => items
    case PriceLowToHigh => SortBy(items, price)
    case PriceHighToLow => SortBy(items, Negated(price))
  }

  /**
   * `applySorting` returns a permutation of its input: the input itself for "default",
   * ordered by non-decreasing or non-increasing price for the two price options.
   */
  lemma ApplySortingSpec<T>(items: seq<T>, option: SortOption, price: T -> int)
    ensures multiset(ApplySorting(items, option, price)) == multiset(items)
    ensures |ApplySorting(items, option, price)| == |items|
    ensures option == Default ==> ApplySorting(items, option, price) == items
    ensures option == PriceLowToHigh ==> SortedBy(ApplySorting(items, option, price), price)
    ensures option == PriceHighToLow ==> forall i, j :: 0 <= i < j < |items| ==>
      price(ApplySorting(items, option, price)[i]) >= price(ApplySorting(items, option, price)[j])
  {
    match option
    case Default =>
    case PriceLowToHigh => SortBySpec(items, price);
    case PriceHighToLow =>
      var r := SortBy(items, Negated(price));
      SortBySpec(items, Negated(price));
      forall i, j | 0 <= i < j < |items| ensures price(r[i]) >= price(r[j]) {
        assert Negated(price)(r[i]) <= Negated(price)(r[j]);
      }
  }

  /** Whatever the option, equally priced items keep their original relative order. */
  lemma ApplySortingStable<T>(items: seq<T>, option: SortOption, price: T -> int, k: int)
    ensures Filter(ApplySorting(items, option, price), KeyIs(price, k)) == Filter(items, KeyIs(price, k))
  {
    match option
    case Default =>
    case PriceLowToHigh => SortByStable(items, price, k);
    case PriceHighToLow =>
      var r := SortBy(items, Negated(price));
      SortByStable(items, Negated(price), -k);
      FilterSameTest(r, KeyIs(Negated(price), -k), KeyIs(price, k));
      FilterSameTest(items, KeyIs(Negated(price), -k), KeyIs(price, k));
  }

  /** `filteredProducts`. */
  function ProductsView(ps: seq<Product>, f: SearchFilters, option: SortOption): seq<Product> {
    ApplySorting(Filter(ps, ProductPasses(f)), option, PriceOf)
  }

  /** `filteredOrders`. */
  function OrdersView(os: seq<Order>, f: SearchFilters, option: SortOption): seq<Order> {
    ApplySorting(Filter(os, OrderPasses(f)), option, TotalOf)
  }

  /**
   * `filteredProducts` has no false positives and no false negatives: each product appears
   * exactly as often as in the catalogue when it passes the filters (always, when the filters
   * are for orders) and not at all otherwise; the view is ordered as the sort option says.
   */
  lemma ProductsViewSpec(ps: seq<Product>, f: SearchFilters, option: SortOption, p: Product)
    ensures multiset(ProductsView(ps, f, option))[p]
         == if f.kind != ProductsType || ProductMatches(p, f) then multiset(ps)[p] else 0
    ensures p in ProductsView(ps, f, option) <==> p in ps && (f.kind == ProductsType ==> ProductMatches(p, f))
    ensures f.kind != ProductsType && option == Default ==> ProductsView(ps, f, option) == ps
    ensures option == PriceLowToHigh ==> SortedBy(ProductsView(ps, f, option), PriceOf)
  {
    var kept := Filter(ps, ProductPasses(f));
    ApplySortingSpec(kept, option, PriceOf);
    FilterMultiplicity(ps, ProductPasses(f), p);
    if f.kind != ProductsType {
      FilterKeepsAll(ps, ProductPasses(f));
    }
    assert p in ProductsView(ps, f, option) <==> multiset(ProductsView(ps, f, option))[p] > 0;
  }

  /** The same two-way guarantee for `filteredOrders`. */
  lemma OrdersViewSpec(os: seq<Order>, f: SearchFilters, option: SortOption, o: Order)
    ensures multiset(OrdersView(os, f, option))[o]
         == if f.kind != OrdersType || OrderMatches(o, f) then multiset(os)[o] else 0
    ensures o in OrdersView(os, f, option) <==> o in os && (f.kind == OrdersType ==> OrderMatches(o, f))
    ensures f.kind != OrdersType && option == Default ==> OrdersView(os, f, option) == os
    ensures option == PriceHighToLow ==> forall i, j :: 0 <= i < j < |OrdersView(os, f, option)| ==>
      OrdersView(os, f, option)[i].totalAmount >= OrdersView(os, f, option)[j].totalAmount
  {
    var kept := Filter(os, OrderPasses(f));
    ApplySortingSpec(kept, option, TotalOf);
    FilterMultiplicity(os, OrderPasses(f), o);
    if f.kind != OrdersType {
      FilterKeepsAll(os, OrderPasses(f));
    }
    assert o in OrdersView(os, f, option) <==> multiset(OrdersView(os, f, option))[o] > 0;
  }

  /** With the initial filters (products, blank query, no bounds) every product passes. */
  lemma InitialFiltersPassEverything(ps: seq<Product>)
    ensures Filter(ps, ProductPasses(InitialFilters)) == ps
  {
    forall i | 0 <= i < |ps| ensures ProductPasses(InitialFilters)(ps[i]) {
      InitialFiltersPassProduct(ps[i]);
    }
    FilterKeepsAll(ps, ProductPasses(InitialFilters));
  }

  lemma InitialFiltersPassProduct(p: Product)
    ensures ProductPasses(InitialFilters)(p)
  {
    BlankFiltersPassProduct(p, InitialFilters);
  }

  lemma BlankFiltersPassProduct(p: Product, f: SearchFilters)
    requires f.query == [] && f.minPrice.None? && f.maxPrice.None?
    requires f.minQuantity.None? && f.maxQuantity.None?
    ensures ProductMatches(p, f)
  {
    TrimEmpty();
  }

  lemma SortThree<T>(a: T, b: T, c: T, key: T -> int)
    requires key(c) < key(a) < key(b)
    ensures SortBy([a, b, c], key) == [c, a, b]
  {
    SortByCons(c, [], key);
    InsertFront(c, [], key);
    SortByCons(b, [c], key);
    InsertPast(b, [c], key);
    InsertFront(b, [], key);
    SortByCons(a, [b, c], key);
    InsertPast(a, [c, b], key);
    InsertFront(a, [b], key);
  }

  /** Prices 100, 50, 200 sorted high to low come out as 200, 100, 50. */
  lemma PriceHighToLowExample(a: Product, b: Product, c: Product)
    requires a.price == 100 && b.price == 50 && c.price == 200
    ensures ProductsView([a, b, c], InitialFilters, PriceHighToLow) == [c, a, b]
  {
    InitialFiltersPassEverything([a, b, c]);
    var key := Negated(PriceOf);
    assert key(a) == -PriceOf(a) && key(b) == -PriceOf(b) && key(c) == -PriceOf(c);
    SortThree(a, b, c, key);
  }

  // ---------------------------------------------------------------------------
  // Theme and settings

  function Toggled(t: Theme): Theme {
    if t == Light then Dark else Light
  }

  /** `toggleTheme` flips the theme; flipping twice restores it. */
  lemma ToggleThemeInvolution(t: Theme)
    ensures Toggled(t) != t && Toggled(Toggled(t)) == t
  {
  }

  /** `updateSettings`: fields present in the patch win, the others are kept. */
  function MergeSettings(s: Settings, patch: SettingsPatch): (r: Settings)
    ensures patch.showCurrencyConverter.Some? ==> r.showCurrencyConverter == patch.showCurrencyConverter.value
    ensures patch.showCurrencyConverter.None? ==> r == s
  {
    Settings(patch.showCurrencyConverter.GetOr(s.showCurrencyConverter))
  }

  // ---------------------------------------------------------------------------
  // The store

  class AppStore {
    var products: seq<Product>
    var orders: seq<Order>
    var theme: Theme
    var sidebarOpen: bool
    var searchFilters: SearchFilters
    var sortOption: SortOption
    var settings: Settings

    /** Every stored order carries one of the two allowed statuses. */
    ghost predicate Valid()
      reads this
    {
      AllStatusesAllowed(orders)
    }

    /**
     * Start-up: the persisted collections (`None` when nothing was stored), with the orders'
     * statuses repaired, and the initial transient state.
     */
    constructor (savedProducts: Option<seq<Product>>, savedOrders: Option<seq<Order>>,
                 savedTheme: Option<Theme>, savedSettings: Option<Settings>)
      ensures Valid()
      ensures products == savedProducts.GetOr([])
      ensures orders == NormalizeLoadedOrders(savedOrders.GetOr([]))
      ensures theme == savedTheme.GetOr(Light)
      ensures settings == savedSettings.GetOr(DefaultSettings)
      ensures !sidebarOpen && searchFilters == InitialFilters && sortOption == Default
    {
      products := savedProducts.GetOr([]);
      orders := NormalizeLoadedOrders(savedOrders.GetOr([]));
      theme := savedTheme.GetOr(Light);
      sidebarOpen := false;
      searchFilters := InitialFilters;
      sortOption := Default;
      settings := savedSettings.GetOr(DefaultSettings);
      LoadedOrdersNormalized(savedOrders.GetOr([]));
    }

    /** `filteredProducts`. */
    function FilteredProducts(): seq<Product>
      reads this
    {
      ProductsView(products, searchFilters, sortOption)
    }

    /** `filteredOrders`. */
    function FilteredOrders(): seq<Order>
      reads this
    {
      OrdersView(orders, searchFilters, sortOption)
    }

    method AddProduct(data: Product, newId: string)
      modifies this`products
      ensures products == AppendProduct(old(products), data, newId)
      ensures products[..|old(products)|] == old(products) && products[|old(products)|].id == newId
    {
      products := products + [data.(id := newId)];
    }

    method UpdateProduct(updated: Product)
      modifies this`products
      ensures products == ReplaceProduct(old(products), updated)
      ensures |products| == |old(products)|
    {
      products := UpdateWhere(products, ProductIdIs(updated.id), _ => updated);
    }

    method DeleteProduct(id: string)
      modifies this`products
      ensures products == RemoveProduct(old(products), id)
      ensures forall i :: 0 <= i < |products| ==> products[i].id != id
    {
      products := Filter(products, ProductIdIsNot(id));
    }

    method AdjustQuantity(id: string, change: int)
      modifies this`products
      ensures products == AdjustQuantityIn(old(products), id, change)
      ensures forall i :: 0 <= i < |products| && products[i].id == id ==> products[i].quantity >= 0
    {
      products := UpdateWhere(products, ProductIdIs(id), p => WithQuantityAdjusted(p, change));
    }

    method AddOrder(data: Order, newId: string)
      requires Valid()
      modifies this`orders
      ensures Valid()
      ensures orders == AppendOrder(old(orders), data, newId)
    {
      var validStatus := if AllowedStatus(data.status) then data.status else InTransit;
      orders := orders + [data.(id := newId, status := validStatus)];
    }

    method UpdateOrder(updated: Order)
      requires Valid()
      modifies this`orders
      ensures Valid()
      ensures orders == ReplaceOrder(old(orders), updated)
    {
      var validStatus := if AllowedStatus(updated.status) then updated.status else InTransit;
      var validated := updated.(status := validStatus);
      orders := UpdateWhere(orders, OrderIdIs(validated.id), _ => validated);
      assert orders == ReplaceOrder(old(orders), updated) by {
        assert validated == WithValidStatus(updated);
      }
    }

    method UpdateOrderStatus(id: string, status: string)
      requires Valid()
      modifies this`orders
      ensures Valid()
      ensures !AllowedStatus(status) ==> orders == old(orders)
      ensures orders == SetOrderStatus(old(orders), id, status)
    {
      if !AllowedStatus(status) {
        return;
      }
      orders := UpdateWhere(orders, OrderIdIs(id), WithStatus(status));
    }

    method DeleteOrder(id: string)
      requires Valid()
      modifies this`orders
      ensures Valid()
      ensures orders == RemoveOrder(old(orders), id)
    {
      orders := Filter(orders, OrderIdIsNot(id));
    }

    method ToggleTheme()
      modifies this`theme
      ensures theme == Toggled(old(theme)) && theme != old(theme)
    {
      theme := if theme == Light then Dark else Light;
    }

    method UpdateSettings(patch: SettingsPatch)
      modifies this`settings
      ensures settings == MergeSettings(old(settings), patch)
    {
      settings := Settings(patch.showCurrencyConverter.GetOr(settings.showCurrencyConverter));
    }

    /** `setSearchFilters` replaces the filters as a whole. */
    method SetSearchFilters(filters: SearchFilters)
      modifies this`searchFilters
      ensures searchFilters == filters
    {
      searchFilters := filters;
    }

    method SetSortOption(option: SortOption)
      modifies this`sortOption
      ensures sortOption == option
    {
      sortOption := option;
    }

    method SetSidebarOpen(open: bool)
      modifies this`sidebarOpen
      ensures sidebarOpen == open
    {
      sidebarOpen := open;
    }
  }
}
