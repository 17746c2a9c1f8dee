/**
 * The order dialog (`OrderForm` in src/components/OrderForm.tsx): the line-item editor
 * behind it, the running total, and the submit that hands the order to the store.
 */
module OrderForm {
  import opened Wrappers
  import opened Text
  import opened Seqs
  import opened Context

  /** The status the form starts with; the store turns it into "в пути". */
  const NewStatus: string := "new"

  // ---------------------------------------------------------------------------
  // The total

  function LineAmount(item: LineItem): int {
    item.price * item.quantity
  }

  /** `orderProducts.reduce((sum, p) => sum + p.price * p.quantity, 0)`, folded from the left. */
  function Total(items: seq<LineItem>): int {
    if items == [] then 0 else Total(items[..|items| - 1]) + LineAmount(items[|items| - 1])
  }

  /** Adding a line adds its amount. */
  lemma TotalAppend(items: seq<LineItem>, item: LineItem)
    ensures Total(items + [item]) == Total(items) + LineAmount(item)
  {
    assert (items + [item])[..|items|] == items;
  }

  /** The total of a concatenation is the sum of the totals: the fold is a plain sum. */
  lemma {:induction false} TotalConcat(a: seq<LineItem>, b: seq<LineItem>)
    ensures Total(a + b) == Total(a) + Total(b)
  {
    if b == [] {
      assert a + b == a;
    } else {
      var c := b[..|b| - 1];
      TotalConcat(a, c);
      assert (a + b)[..|a + b| - 1] == a + c;
      assert (a + b)[|a + b| - 1] == b[|b| - 1];
    }
  }

  /** Splitting out line `i`: the total is the lines before it, its amount, and the lines after it. */
  lemma TotalSplit(items: seq<LineItem>, i: int)
    requires 0 <= i < |items|
    ensures Total(items) == Total(items[..i]) + LineAmount(items[i]) + Total(items[i + 1..])
  {
    assert items == items[..i] + [items[i]] + items[i + 1..];
    TotalConcat(items[..i] + [items[i]], items[i + 1..]);
    TotalAppend(items[..i], items[i]);
  }

  /** An empty order totals 0; with no negative price or quantity the total is never negative. */
  lemma {:induction false} TotalNonNegative(items: seq<LineItem>)
    requires forall i :: 0 <= i < |items| ==> items[i].price >= 0 && items[i].quantity >= 0
    ensures Total(items) >= 0
    ensures items == [] ==> Total(items) == 0
  {
    if items != [] {
      TotalNonNegative(items[..|items| - 1]);
    }
  }

  // ---------------------------------------------------------------------------
  // Adding a line

  /** Some line of the order is for product `id`. */
  predicate InOrder(items: seq<LineItem>, id: string) {
    exists i | 0 <= i < |items| :: items[i].productId == id
  }

  function NotInOrder(items: seq<LineItem>): Product -> bool {
    (p: Product) => !InOrder(items, p.id)
  }

  /** A line for catalogue product `p`, copying its current name and price. */
  function LineFor(p: Product, quantity: int): LineItem {
    LineItem(p.id, p.name, quantity, p.price)
  }

  /** `addProductToOrder`: one unit of the first catalogue product the order does not have yet. */
  function WithFirstAvailable(items: seq<LineItem>, catalogue: seq<Product>): seq<LineItem> {
    if |catalogue| == 0 then items
    else
      var available := Filter(catalogue, NotInOrder(items));
      if |available| == 0 then items else items + [LineFor(available[0], 1)]
  }

  /** No two lines are for the same product. */
  predicate DistinctProducts(items: seq<LineItem>) {
    forall i, j :: 0 <= i < j < |items| ==> items[i].productId != items[j].productId
  }

  /**
   * Adding changes nothing exactly when every catalogue product is already in the order
   * (in particular when the catalogue is empty); otherwise it adds one line.
   */
  lemma AddProductNoOpIffAllPresent(items: seq<LineItem>, catalogue: seq<Product>)
    ensures WithFirstAvailable(items, catalogue) == items
        <==> forall k :: 0 <= k < |catalogue| ==> InOrder(items, catalogue[k].id)
    ensures WithFirstAvailable(items, catalogue) != items ==>
      |WithFirstAvailable(items, catalogue)| == |items| + 1
  {
    var available := Filter(catalogue, NotInOrder(items));
    if !forall k :: 0 <= k < |catalogue| ==> InOrder(items, catalogue[k].id) {
      var k :| 0 <= k < |catalogue| && !InOrder(items, catalogue[k].id);
      assert NotInOrder(items)(catalogue[k]);
      assert catalogue[k] in available;
    }
  }

  /**
   * When the first missing catalogue product is at position `k`, adding appends one unit
   * of it with its catalogue name and price, after the untouched existing lines.
   */
  lemma AddProductAppendsFirstMissing(items: seq<LineItem>, catalogue: seq<Product>, k: nat)
    requires k < |catalogue| && !InOrder(items, catalogue[k].id)
    requires forall j :: 0 <= j < k ==> InOrder(items, catalogue[j].id)
    ensures WithFirstAvailable(items, catalogue) == items + [LineFor(catalogue[k], 1)]
  {
    FilterHead(catalogue, NotInOrder(items), k);
  }

  /** Adding never creates a second line for a product already in the order. */
  lemma AddProductKeepsProductsDistinct(items: seq<LineItem>, catalogue: seq<Product>)
    requires DistinctProducts(items)
    ensures DistinctProducts(WithFirstAvailable(items, catalogue))
  {
    var r := WithFirstAvailable(items, catalogue);
    if r != items {
      var available := Filter(catalogue, NotInOrder(items));
      assert NotInOrder(items)(available[0]);
      forall i | 0 <= i < |items| ensures items[i].productId != r[|items|].productId {
        assert r[|items|].productId == available[0].id;
      }
    }
  }

  // ---------------------------------------------------------------------------
  // Removing, editing and re-selecting a line

  /** `orderProducts.filter((_, i) => i !== index)`. */
  function RemoveAt(items: seq<LineItem>, index: int): seq<LineItem> {
    if 0 <= index < |items| then items[..index] + items[index + 1..] else items
  }

  /**
   * Removing line `index` drops exactly that line and its amount from the total; the other
   * lines keep their order. An index outside the list removes nothing.
   */
  lemma RemoveAtSpec(items: seq<LineItem>, index: int)
    ensures !(0 <= index < |items|) ==> RemoveAt(items, index) == items
    ensures 0 <= index < |items| ==>
      && |RemoveAt(items, index)| == |items| - 1
      && (forall j :: 0 <= j < index ==> RemoveAt(items, index)[j] == items[j])
      && (forall j :: index <= j < |items| - 1 ==> RemoveAt(items, index)[j] == items[j + 1])
      && Total(RemoveAt(items, index)) == Total(items) - LineAmount(items[index])
  {
    if 0 <= index < |items| {
      TotalSplit(items, index);
      TotalConcat(items[..index], items[index + 1..]);
    }
  }

  /** `orderProducts.map((p, i) => i === index ? change(p) : p)`. */
  function UpdateAt(items: seq<LineItem>, index: int, change: LineItem -> LineItem): (r: seq<LineItem>)
    ensures 0 <= index < |items| ==> r == items[index := change(items[index])]
    ensures !(0 <= index < |items|) ==> r == items
  {
    seq(|items|, i requires 0 <= i < |items| => if i == index then change(items[i]) else items[i])
  }

  /** Replacing line `index` moves the total by the difference between the new and old amounts. */
  lemma TotalReplaceAt(items: seq<LineItem>, index: int, line: LineItem)
    requires 0 <= index < |items|
    ensures Total(items[index := line]) == Total(items) - LineAmount(items[index]) + LineAmount(line)
  {
    var r := items[index := line];
    TotalSplit(items, index);
    TotalSplit(r, index);
    assert r[..index] == items[..index];
    assert r[index + 1..] == items[index + 1..];
  }

  /** The value typed into one field of a line: `updateOrderProduct(index, field, value)`. */
  datatype FieldValue =
    | ProductIdValue(productId: string)
    | NameValue(name: string)
    | QuantityValue(quantity: int)
    | PriceValue(price: int)

  /** `{ ...item, [field]: value }`. */
  function SetField(item: LineItem, v: FieldValue): LineItem {
    match v
    case ProductIdValue(x) => item.(productId := x)
    case NameValue(x) => item.(name := x)
    case QuantityValue(x) => item.(quantity := x)
    case PriceValue(x) => item.(price := x)
  }

  /** The field `v` names holds `v`'s value in `item`. */
  predicate Holds(item: LineItem, v: FieldValue) {
    match v
    case ProductIdValue(x) => item.productId == x
    case NameValue(x) => item.name == x
    case QuantityValue(x) => item.quantity == x
    case PriceValue(x) => item.price == x
  }

  /** `a` and `b` agree on every field except the one `v` names. */
  predicate AgreeOutside(a: LineItem, b: LineItem, v: FieldValue) {
    && (v.ProductIdValue? || a.productId == b.productId)
    && (v.NameValue? || a.name == b.name)
    && (v.QuantityValue? || a.quantity == b.quantity)
    && (v.PriceValue? || a.price == b.price)
  }

  function SetFieldTo(v: FieldValue): LineItem -> LineItem {
    (item: LineItem) => SetField(item, v)
  }

  /**
   * `updateOrderProduct(index, field, value)`: line `index` now holds the value in that field and
   * keeps its other fields; every other line is unchanged.
   */
  lemma UpdateOrderProductSpec(items: seq<LineItem>, index: int, v: FieldValue)
    ensures |UpdateAt(items, index, SetFieldTo(v))| == |items|
    ensures forall j :: 0 <= j < |items| && j != index ==> UpdateAt(items, index, SetFieldTo(v))[j] == items[j]
    ensures 0 <= index < |items| ==>
      && Holds(UpdateAt(items, index, SetFieldTo(v))[index], v)
      && AgreeOutside(UpdateAt(items, index, SetFieldTo(v))[index], items[index], v)
  {
  }

  /** The quantity box: `parseInt(text) || 1`, so text without a number and "0" both give 1. */
  function QuantityFromInput(text: string): (q: int)
    ensures q != 0
    ensures ParseNumber(text).None? ==> q == 1
    ensures ParseNumber(text) == Some(0) ==> q == 1
    ensures ParseNumber(text).Some? && ParseNumber(text).value != 0 ==> q == ParseNumber(text).value
  {
    match ParseNumber(text)
    case None => 1
    case Some(n) => if n == 0 then 1 else n
  }

  /** Nothing but the `min="1"` hint stops a negative quantity: "-3" typed in is taken as -3. */
  lemma NegativeQuantityAccepted(n: int)
    requires n < 0
    ensures QuantityFromInput(IntToString(n)) == n
  {
    ParseIntToString(n);
  }

  /** `products.find(p => p.id === id)`. */
  function FindProduct(catalogue: seq<Product>, id: string): (r: Option<Product>)
    ensures r.Some? ==> r.value in catalogue && r.value.id == id
    ensures r.None? <==> forall i :: 0 <= i < |catalogue| ==> catalogue[i].id != id
  {
    if catalogue == [] then None
    else if catalogue[0].id == id then Some(catalogue[0])
    else FindProduct(catalogue[1..], id)
  }

  /** `find` returns the first product with that id. */
  lemma {:induction false} FindProductFirst(catalogue: seq<Product>, id: string, k: nat)
    requires k < |catalogue| && catalogue[k].id == id
    requires forall j :: 0 <= j < k ==> catalogue[j].id != id
    ensures FindProduct(catalogue, id) == Some(catalogue[k])
  {
    if k > 0 {
      FindProductFirst(catalogue[1..], id, k - 1);
    }
  }

  function Reselect(p: Product): LineItem -> LineItem {
    (item: LineItem) => LineFor(p, item.quantity)
  }

  /** `handleProductSelect(index, id)`. */
  function SelectProduct(items: seq<LineItem>, index: int, catalogue: seq<Product>, id: string): seq<LineItem> {
    match FindProduct(catalogue, id)
    case None => items
    case Some(p) => UpdateAt(items, index, Reselect(p))
  }

  /**
   * Selecting an id no catalogue product has changes nothing; otherwise line `index` takes the
   * product's id, name and price and keeps its quantity, and no other line changes.
   */
  lemma SelectProductSpec(items: seq<LineItem>, index: int, catalogue: seq<Product>, id: string)
    ensures (forall i :: 0 <= i < |catalogue| ==> catalogue[i].id != id) ==>
      SelectProduct(items, index, catalogue, id) == items
    ensures |SelectProduct(items, index, catalogue, id)| == |items|
    ensures forall j :: 0 <= j < |items| && j != index ==> SelectProduct(items, index, catalogue, id)[j] == items[j]
    ensures 0 <= index < |items| && FindProduct(catalogue, id).Some? ==>
      var p := FindProduct(catalogue, id).value;
      var line := SelectProduct(items, index, catalogue, id)[index];
      && p in catalogue
      && line.productId == id && line.name == p.name && line.price == p.price
      && line.quantity == items[index].quantity
  {
  }

  // ---------------------------------------------------------------------------
  // Submitting

  /**
   * The order the form hands to the store: the fields it edits and the computed total. It has
   * no phone number, description or image.
   */
  function SubmittedOrder(id: string, customerName: string, date: string, status: string,
                          items: seq<LineItem>): Order {
    Order(id, customerName, date, status, None, None, None, items, Total(items))
  }

  /**
   * A new order is stored last with the fresh id and the form's total, its "new" status becoming
   * "в пути"; an edit replaces the order with that id by the form's fields, so a phone number,
   * description or image the order had is dropped.
   */
  lemma SubmitSpec(os: seq<Order>, id: string, newId: string, customerName: string, date: string,
                   items: seq<LineItem>)
    ensures var added := AppendOrder(os, SubmittedOrder("", customerName, date, NewStatus, items), newId);
      && |added| == |os| + 1 && added[..|os|] == os
      && added[|os|] == Order(newId, customerName, date, InTransit, None, None, None, items, Total(items))
    ensures var edited := ReplaceOrder(os, SubmittedOrder(id, customerName, date, NewStatus, items));
      forall i :: 0 <= i < |os| && os[i].id == id ==>
        && edited[i].status == InTransit
        && edited[i].totalAmount == Total(items)
        && edited[i].phoneNumber.None? && edited[i].description.None? && edited[i].image.None?
  {
    AppendOrderSpec(os, SubmittedOrder("", customerName, date, NewStatus, items), newId);
    ReplaceOrderSpec(os, SubmittedOrder(id, customerName, date, NewStatus, items));
  }

  // ---------------------------------------------------------------------------
  // The form

  class OrderFormState {
    /** The order being edited; `None` when the form creates a new one. */
    const initialData: Option<Order>
    var customerName: string
    var date: string
    var status: string
    var orderProducts: seq<LineItem>

    /** The initial state; `today` stands for the current date the form defaults to. */
    constructor (initialData: Option<Order>, today: string)
      ensures this.initialData == initialData
      ensures customerName == (if initialData.Some? then initialData.value.customerName else "")
      ensures date == (if initialData.Some? && initialData.value.date != "" then initialData.value.date else today)
      ensures status == (if initialData.Some? && initialData.value.status != "" then initialData.value.status else NewStatus)
      ensures orderProducts == (if initialData.Some? then initialData.value.products else [])
    {
      this.initialData := initialData;
      match initialData
      case None =>
        customerName := "";
        date := today;
        status := NewStatus;
        orderProducts := [];
      case Some(order) =>
        customerName := order.customerName;
        date := if order.date != "" then order.date else today;
        status := if order.status != "" then order.status else NewStatus;
        orderProducts := order.products;
    }

    /** The total shown under the lines and submitted with the order. */
    function TotalAmount(): int
      reads this
    {
      Total(orderProducts)
    }

    method AddProductToOrder(store: AppStore)
      modifies this`orderProducts
      ensures orderProducts == WithFirstAvailable(old(orderProducts), store.products)
    {
      if |store.products| == 0 {
        return;
      }
      var available := Filter(store.products, NotInOrder(orderProducts));
      if |available| == 0 {
        return;
      }
      var productToAdd := available[0];
      orderProducts := orderProducts + [LineItem(productToAdd.id, productToAdd.name, 1, productToAdd.price)];
    }

    method RemoveProductFromOrder(index: int)
      modifies this`orderProducts
      ensures orderProducts == RemoveAt(old(orderProducts), index)
    {
      if 0 <= index < |orderProducts| {
        orderProducts := orderProducts[..index] + orderProducts[index + 1..];
      }
    }

    method UpdateOrderProduct(index: int, v: FieldValue)
      modifies this`orderProducts
      ensures orderProducts == UpdateAt(old(orderProducts), index, SetFieldTo(v))
    {
      orderProducts := UpdateAt(orderProducts, index, SetFieldTo(v));
    }

    method HandleProductSelect(index: int, store: AppStore, id: string)
      modifies this`orderProducts
      ensures orderProducts == SelectProduct(old(orderProducts), index, store.products, id)
    {
      var selected := FindProduct(store.products, id);
      if selected.Some? {
        orderProducts := UpdateAt(orderProducts, index, Reselect(selected.value));
      }
    }

    /** `resetForm`: only a form creating an order is cleared. */
    method ResetForm(today: string)
      modifies this`customerName, this`date, this`status, this`orderProducts
      ensures initialData.Some? ==>
        customerName == old(customerName) && date == old(date)
        && status == old(status) && orderProducts == old(orderProducts)
      ensures initialData.None? ==>
        customerName == "" && date == today && status == NewStatus && orderProducts == []
    {
      if initialData.None? {
        customerName := "";
        date := today;
        status := NewStatus;
        orderProducts := [];
      }
    }

    /**
     * `handleSubmit`: an edit goes to `updateOrder` under the edited order's id, a new order to
     * `addOrder` with the fresh id; then the form is reset.
     */
    method HandleSubmit(store: AppStore, newId: string, today: string)
      requires store.Valid()
      modifies this`customerName, this`date, this`status, this`orderProducts, store`orders
      ensures store.Valid()
      ensures initialData.Some? ==> store.orders == ReplaceOrder(old(store.orders),
        SubmittedOrder(initialData.value.id, old(customerName), old(date), old(status), old(orderProducts)))
      ensures initialData.None? ==> store.orders == AppendOrder(old(store.orders),
        SubmittedOrder("", old(customerName), old(date), old(status), old(orderProducts)), newId)
      ensures initialData.Some? ==>
        customerName == old(customerName) && date == old(date)
        && status == old(status) && orderProducts == old(orderProducts)
      ensures initialData.None? ==>
        customerName == "" && date == today && status == NewStatus && orderProducts == []
    {
      var totalAmount := Total(orderProducts);
      var orderData := Order("", customerName, date, status, None, None, None, orderProducts, totalAmount);
      if initialData.Some? {
        store.UpdateOrder(orderData.(id := initialData.value.id));
      } else {
        store.AddOrder(orderData, newId);
      }
      ResetForm(today);
    }
  }
}
