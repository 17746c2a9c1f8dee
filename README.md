# Inventory store and forms — a Dafny model

This project models the logic core of a small React inventory app. The app keeps a product
catalogue and a list of customer orders. The model is written for Dafny 4.11.

- `Context` is the application store (`AppProvider`). It is a class whose fields are the product
  list, the order list, the theme, the sidebar flag, the search filters, the sort option and the
  settings. Every list mutator rebuilds one list by id: append, replace, delete, or a quantity change
  clamped at zero. Order statuses are kept inside the pair "в пути" / "на складе" on load, on
  add and on update, and `updateOrderStatus` refuses any other value. The derived views
  `filteredProducts` / `filteredOrders` are pure functions of the state: a filter, then
  `applySorting`.
- `OrderForm` is the order dialog. It holds the line-item editor (add the first missing
  product, remove, edit a field, re-select a product), the total Σ price × quantity, and the
  submit that calls `addOrder` or `updateOrder`.
- `Search` is the search popover. Its effect filters products or orders into a result list of
  its own, and it has its own bound boxes.
- `ProductForm` is the product dialog: three field checks, an error map, and the submit and reset.
- `FunctionPanel` is the toolbar: the three-step sort cycle, the grid/list switch, and showing or
  hiding the search box.
- `Notes` is the notes page: new notes go first, and deletion filters by id.
- `Utils` holds the phone-number pattern and the image MIME-type whitelist.
- Support modules model the JavaScript built-ins the code relies on:
  - `Wrappers`: `Option`, for `undefined` and `NaN`.
  - `Text`: `trim`, `toLowerCase`, `includes`, `Number.toString` on integers, and
    `parseInt`/`parseFloat` on decimal integer text.
  - `Seqs`: `filter`, and `map` with a conditional replacement.
  - `Sorting`: the stable `Array.prototype.sort` with a numeric comparator, as a stable insertion
    sort by an integer key.

Prices, quantities and totals are integers. Fresh ids (`Date.now()`) and today's date are method
parameters. The persisted collections read at start-up are constructor parameters (`None` when
nothing was stored).

## Model

| member | source | states |
|---|---|---|
| Text.TrimEmptyIffBlank | src/lib/context.tsx:151 | `query.trim() === ""` holds exactly when every character of the query is whitespace |
| Text.TrimIdempotent | src/components/ProductForm.tsx:68 | trimming an already trimmed name or description changes nothing |
| Text.ParseIntToString | src/components/ProductForm.tsx:38-39 | parsing the text `toString` printed for an integer gives the integer back |
| Text.ParseWithoutDigits | src/components/ProductForm.tsx:49-53 | text without any digit (empty, blank, words) parses to `NaN` |
| Seqs.Filter | src/lib/context.tsx:240 | `filter` keeps only elements that pass, takes them from the input, and keeps every element that passes |
| Seqs.FilterMultiplicity | src/lib/context.tsx:240 | an element that passes is kept as often as it occurs; one that fails is dropped entirely |
| Seqs.FilterConcat | src/lib/context.tsx:240 | `filter` keeps relative order: it distributes over concatenation |
| Seqs.FilterHead | src/components/OrderForm.tsx:97-103 | the first element of the filtered list is the first input element that passes |
| Seqs.UpdateWhere | src/lib/context.tsx:228-230 | `map(x => sel(x) ? f(x) : x)` keeps the length and changes exactly the selected positions |
| Sorting.SortBySpec | src/lib/context.tsx:120-132 | sorting gives a permutation of the input with non-decreasing keys |
| Sorting.InsertSorted | src/lib/context.tsx:120-132 | inserting into a sorted list keeps it sorted |
| Sorting.InsertPermutes | src/lib/context.tsx:120 | inserting adds exactly that element |
| Sorting.SortByStable | src/lib/context.tsx:120 | elements with equal keys come out in their original relative order, as the ECMAScript stable sort requires |
| Context.LoadedOrdersNormalized | src/lib/context.tsx:84-88 | after load every status is allowed, only statuses changed, allowed statuses are kept, and a second pass changes nothing |
| Context.AppendProductSpec | src/lib/context.tsx:214-219 | `addProduct` appends exactly one product with the fresh id and keeps the old list as prefix |
| Context.AdjustQuantitySpec | src/lib/context.tsx:248-258 | matching products get quantity max(0, old + change), never negative for any change; the other products are untouched |
| Context.UnknownProductIdIsNoOp | src/lib/context.tsx:226-231 | an id not in the list makes `updateProduct` and `adjustQuantity` no-ops |
| Context.ReplaceProductSpec | src/lib/context.tsx:226-231 | `updateProduct` replaces the products with that id and keeps the length and every other product |
| Context.ChairQuantityClampsAtZero | src/lib/context.tsx:252 | 10 chairs adjusted by -15 leaves 0, not -5 |
| Context.RemoveProductSpec | src/lib/context.tsx:238-240 | `deleteProduct` removes every product with that id, keeps the others with their multiplicity, and is idempotent |
| Context.RemoveProductKeepsOrder | src/lib/context.tsx:240 | deletion keeps the remaining products in order |
| Context.AppendOrderSpec | src/lib/context.tsx:260-272 | `addOrder` appends one order with the fresh id, the status kept if allowed and "в пути" otherwise, every other field copied |
| Context.ReplaceOrderSpec | src/lib/context.tsx:279-294 | `updateOrder` stores the update with its status repaired at the matching positions and touches nothing else |
| Context.SetOrderStatusSpec | src/lib/context.tsx:302-313 | a refused status leaves the orders as they were; an allowed one changes only the matching orders' status |
| Context.OrderCardLabelsAreRefused | src/components/OrderCard.tsx:85 | each of the five status labels the order card offers is refused, so choosing it changes nothing |
| Context.RemoveOrderSpec | src/lib/context.tsx:322-323 | `deleteOrder` removes exactly the orders with that id, is idempotent, and changes nothing exactly when no order has that id |
| Context.OrderMutationsKeepStatusesAllowed | src/lib/context.tsx:260-323 | add, update, status change and delete each keep every stored status allowed |
| Context.ApplySortingSpec | src/lib/context.tsx:117-144 | "default" returns the input itself; the price options return a permutation ordered by non-decreasing or non-increasing price |
| Context.ApplySortingStable | src/lib/context.tsx:120-143 | under every option equally priced items keep their relative order |
| Context.ProductsViewSpec | src/lib/context.tsx:147-167 | a product appears in the view as often as in the catalogue when it passes the filters (always, for order filters) and never otherwise; low-to-high views are sorted |
| Context.OrdersViewSpec | src/lib/context.tsx:170-190 | the same two-way guarantee for orders, with high-to-low views ordered by non-increasing total |
| Context.InitialFiltersPassEverything | src/lib/context.tsx:98-105 | the initial filters let every product through |
| Context.PriceHighToLowExample | src/lib/context.tsx:134-138 | prices 100, 50, 200 sorted high to low come out 200, 100, 50 |
| Context.ToggleThemeInvolution | src/lib/context.tsx:331-333 | toggling always changes the theme and toggling twice restores it |
| Context.MergeSettings | src/lib/context.tsx:210-212 | fields given in the patch win and the others are kept |
| Context.AppStore.constructor | src/lib/context.tsx:76-114 | start-up state: stored collections or empty lists, orders normalised, light theme and default settings unless stored, initial filters and default sort |
| Context.AppStore.AddProduct | src/lib/context.tsx:214-219 | the product list becomes the old list plus the new product under the fresh id |
| Context.AppStore.UpdateProduct | src/lib/context.tsx:226-231 | the product list becomes the replacement by id |
| Context.AppStore.DeleteProduct | src/lib/context.tsx:238-240 | the product list loses every product with that id |
| Context.AppStore.AdjustQuantity | src/lib/context.tsx:248-258 | the product list gets the clamped quantity change |
| Context.AppStore.AddOrder | src/lib/context.tsx:260-272 | the order list gains the order with its status repaired; all stored statuses stay allowed |
| Context.AppStore.UpdateOrder | src/lib/context.tsx:279-294 | the order list gets the repaired update by id; all stored statuses stay allowed |
| Context.AppStore.UpdateOrderStatus | src/lib/context.tsx:302-313 | a refused status leaves the orders unchanged; an allowed one is set on the matching orders |
| Context.AppStore.DeleteOrder | src/lib/context.tsx:322-323 | the order list loses every order with that id |
| Context.AppStore.ToggleTheme | src/lib/context.tsx:331-333 | the theme flips |
| Context.AppStore.UpdateSettings | src/lib/context.tsx:210-212 | the settings become the merge of the old ones and the patch |
| Context.AppStore.SetSearchFilters | src/lib/context.tsx:98-105 | the filters are replaced as a whole |
| Context.AppStore.SetSortOption | src/lib/context.tsx:107 | the sort option is replaced |
| Context.AppStore.SetSidebarOpen | src/lib/context.tsx:96 | the sidebar flag is replaced |
| OrderForm.TotalAppend | src/components/OrderForm.tsx:151-154 | adding a line adds its price × quantity to the total |
| OrderForm.TotalConcat | src/components/OrderForm.tsx:151-154 | the left fold is a plain sum: the total of a concatenation is the sum of the totals |
| OrderForm.TotalNonNegative | src/components/OrderForm.tsx:151-154 | the empty order totals 0, and the total is never negative when no price or quantity is |
| OrderForm.TotalReplaceAt | src/components/OrderForm.tsx:120-149 | replacing one line moves the total by the difference of that line's amounts |
| OrderForm.AddProductNoOpIffAllPresent | src/components/OrderForm.tsx:92-101 | adding changes nothing exactly when every catalogue product is already in the order (an empty catalogue included); otherwise it adds one line |
| OrderForm.AddProductAppendsFirstMissing | src/components/OrderForm.tsx:97-113 | otherwise one unit of the first missing catalogue product is appended with its catalogue name and price |
| OrderForm.AddProductKeepsProductsDistinct | src/components/OrderForm.tsx:97-113 | adding never creates a second line for a product already in the order |
| OrderForm.RemoveAtSpec | src/components/OrderForm.tsx:116-118 | removing line i drops exactly that line and its amount from the total; an index out of range removes nothing |
| OrderForm.UpdateAt | src/components/OrderForm.tsx:122-127 | the mapped list equals the old list with position `index` replaced, or the old list when the index is out of range |
| OrderForm.UpdateOrderProductSpec | src/components/OrderForm.tsx:120-129 | line `index` holds the new value in that field and keeps the other fields; every other line is unchanged |
| OrderForm.QuantityFromInput | src/components/OrderForm.tsx:256 | `parseInt(text)`, or 1 when that is falsy, is never 0: it is 1 for text without a number or with value 0, the parsed number otherwise |
| OrderForm.NegativeQuantityAccepted | src/components/OrderForm.tsx:251-256 | a negative number typed into the quantity box is stored as is |
| OrderForm.FindProduct | src/components/OrderForm.tsx:132 | `find` returns a catalogue product with that id, and returns nothing exactly when no product has it |
| OrderForm.FindProductFirst | src/components/OrderForm.tsx:132 | `find` returns the first product with that id |
| OrderForm.SelectProductSpec | src/components/OrderForm.tsx:131-149 | an unknown id changes nothing; otherwise line `index` takes the product's id, name and price, keeps its quantity, and no other line changes |
| OrderForm.SubmitSpec | src/components/OrderForm.tsx:57-77 | a new order is stored last with the fresh id and the total, and its "new" status becomes "в пути"; an edit drops the phone number, description and image |
| OrderForm.OrderFormState.constructor | src/components/OrderForm.tsx:43-53 | the fields start from the edited order, or "", today, "new" and no lines |
| OrderForm.OrderFormState.AddProductToOrder | src/components/OrderForm.tsx:92-114 | the lines become those with the first available product added |
| OrderForm.OrderFormState.RemoveProductFromOrder | src/components/OrderForm.tsx:116-118 | the lines lose line `index` |
| OrderForm.OrderFormState.UpdateOrderProduct | src/components/OrderForm.tsx:120-129 | line `index` gets the field value |
| OrderForm.OrderFormState.HandleProductSelect | src/components/OrderForm.tsx:131-149 | line `index` is re-pointed at the selected product if it exists |
| OrderForm.OrderFormState.ResetForm | src/components/OrderForm.tsx:83-90 | a form for a new order is cleared; an edit form is untouched |
| OrderForm.OrderFormState.HandleSubmit | src/components/OrderForm.tsx:57-81 | an edit replaces the order with the edited id; a new order is appended under the fresh id; then the form is reset; stored statuses stay allowed |
| Search.NoSearchNoResults | src/components/Search.tsx:30-77 | a blank query with four empty bound boxes gives no results |
| Search.ProductResultsSpec | src/components/Search.tsx:34-51 | an active product search lists a product exactly when it is in the catalogue and passes the query, price and quantity tests, and never lists an order |
| Search.OrderResultsSpec | src/components/Search.tsx:52-71 | an active order search lists an order exactly when it is stored and passes the name, item-name and total tests, and never lists a product |
| Search.ResultsKeepOrder | src/components/Search.tsx:34-71 | results keep the store's order: they distribute over any split of the list |
| Search.OrderPriceBlankQueryPasses | src/components/Search.tsx:65 | with a blank query the total check passes whatever the price boxes say |
| Search.OrderPriceBoundsBypassed | src/components/Search.tsx:65-68 | an order whose id and total contain the query is found even above the maximum price, while a product above it never is |
| Search.OrderFoundIgnoresQuantity | src/components/Search.tsx:53-71 | the quantity boxes take no part in the order test |
| Search.LoneQuantityBoundListsAllOrders | src/components/Search.tsx:31-71 | on the orders tab, a quantity bound alone lists every order |
| Search.SearchBox.constructor | src/components/Search.tsx:22-28 | all boxes start empty with no results |
| Search.SearchBox.Refresh | src/components/Search.tsx:30-78 | the results become what the effect computes from the boxes and the store |
| Search.SearchBox.SetQuery | src/components/Search.tsx:102 | the query box takes the typed text |
| Search.SearchBox.ClearFilters | src/components/Search.tsx:80-85 | the four bound boxes are emptied and the query stays |
| Search.SearchBox.HandleItemClick | src/components/Search.tsx:87-93 | the results and the query are emptied |
| ProductForm.SubmittedProduct | src/components/ProductForm.tsx:67-73 | a valid form submits a positive price, a non-negative quantity and a non-empty trimmed name |
| ProductForm.UnchangedEditRoundTrip | src/components/ProductForm.tsx:37-76 | a form opened on a product with a non-blank name, positive price and non-negative quantity is valid, and submitting it unchanged gives back the product with trimmed texts |
| ProductForm.ZeroPriceAndNonNumbersRefused | src/components/ProductForm.tsx:49-54 | a zero price is refused while a zero quantity is accepted; a field with no digit fails both number checks |
| ProductForm.ProductFormState.constructor | src/components/ProductForm.tsx:35-43 | fields start from the edited product (an empty image counts as none), or "", "", "1", "", no image |
| ProductForm.FormErrorsSpec | src/components/ProductForm.tsx:45-58 | one message per failing check (blank name, price empty/NaN/≤ 0, quantity empty/NaN/< 0) and no other key; no message exactly when all three checks pass |
| ProductForm.ProductFormState.ValidateForm | src/components/ProductForm.tsx:45-58 | the recorded errors are the messages of the failing checks; the result is true exactly when none was recorded, that is when the form is valid |
| ProductForm.ProductFormState.ResetForm | src/components/ProductForm.tsx:86-94 | an add form is cleared to "", "", "1", "", no image; an edit form is untouched |
| ProductForm.ProductFormState.Open | src/components/ProductForm.tsx:96-106 | opening loads the edited product into the fields, or resets the form |
| ProductForm.ProductFormState.SubmitValidForm | src/components/ProductForm.tsx:63-83 | a valid form goes to the store under the edited id or the fresh id, loading ends, and only an add form is cleared |
| ProductForm.ProductFormState.HandleSubmit | src/components/ProductForm.tsx:60-84 | the errors of the failing checks are recorded; an invalid form leaves the store and the fields untouched; a valid one updates under the edited id or adds under the fresh id, then clears an add form and leaves an edit form's fields as they were |
| FunctionPanel.IndexOf | src/components/FunctionPanel.tsx:47 | `indexOf` gives the first position holding the option, or -1 when none does |
| FunctionPanel.SortCycleSteps | src/components/FunctionPanel.tsx:45-49 | high-to-low → low-to-high → default → high-to-low |
| FunctionPanel.SortCycleHasPeriodThree | src/components/FunctionPanel.tsx:46-48 | three presses restore the option and one or two never do |
| FunctionPanel.NextIndexInRange | src/components/FunctionPanel.tsx:47-48 | the next index lies in [0, 3); index -1 would lead to high-to-low; every option is in the list |
| FunctionPanel.FlipInvolution | src/components/FunctionPanel.tsx:41-43 | the view switch always changes the mode and two presses restore it |
| FunctionPanel.ClosedSearchShowsEverything | src/components/FunctionPanel.tsx:37 | after the search is closed both list views show every item in stored order under the default sort |
| FunctionPanel.PanelState.constructor | src/components/FunctionPanel.tsx:18-20 | hidden search, empty query, default sort |
| FunctionPanel.PanelState.HandleSearchChange | src/components/FunctionPanel.tsx:22-25 | the box and the store's filters take the text; the filters carry no bounds |
| FunctionPanel.PanelState.ToggleSearch | src/components/FunctionPanel.tsx:27-39 | the box is shown or hidden; closing empties the query and pushes an empty query to the store |
| FunctionPanel.PanelState.ToggleViewMode | src/components/FunctionPanel.tsx:41-43 | the view mode flips |
| FunctionPanel.PanelState.CycleSortOption | src/components/FunctionPanel.tsx:45-51 | the panel's option moves to the next one and the store's follows |
| Notes.RemoveNoteSpec | src/pages/Notes.tsx:24-26 | deletion removes every note with that id, keeps the others with their multiplicity, and keeps their order |
| Notes.RemoveMissingIsNoOp | src/pages/Notes.tsx:24-26 | deleting an id no note has changes nothing |
| Notes.AddThenDeleteRestores | src/pages/Notes.tsx:14-26 | adding a note under a fresh id and deleting that id restores the list |
| Notes.NotesPage.constructor | src/pages/Notes.tsx:11 | the page starts with no notes |
| Notes.NotesPage.AddNote | src/pages/Notes.tsx:14-22 | the new note goes first and the older notes follow in order |
| Notes.NotesPage.DeleteNote | src/pages/Notes.tsx:24-26 | the notes lose every note with that id |
| Utils.ClassRunLength | src/lib/utils.ts:24 | the counted run consists of class characters, stops at the limit, the end, or the first other character |
| Utils.ValidatePhoneNumberMatchesPattern | src/lib/utils.ts:21-25 | the scan accepts exactly an optional '+' followed by 7 to 20 digits, parentheses, whitespace or dashes |
| Utils.AcceptedPhoneShape | src/lib/utils.ts:24 | an accepted number has 7 to 21 characters, no letter, and no '+' past the front |
| Utils.DashesAndSpacesAccepted | src/lib/utils.ts:24 | no digit is required: 7 to 20 dashes and spaces pass |
| Utils.IsValidImageExactly | src/lib/utils.ts:16-19 | exactly JPEG, PNG, GIF and WebP are accepted |

## Left out

- Persistence: the `localStorage` reads and writes and the JSON parsing are left out. The stored collections, theme and settings are constructor parameters instead.
- Context.AppStore.constructor: a stored theme string is taken as a valid `Theme`, although the source casts it unchecked.
- Side effects and presentation are left out: `toast`, `console`, the dark-mode class on the document, dialog open/close callbacks, focusing the search box after a timeout, and navigation.
- The "alphabetical" sort option is left out. It compares with `localeCompare`, which depends on the locale, and no caller selects it.
- Date sorts, a phone database and phone-entry deletion are left out. Other pages use them, but they are not part of the store's source.
- Text.ParseNumber: only the decimal integer prefix is modelled. `parseFloat` fractions and exponents, `parseInt` hexadecimal prefixes, and `Infinity` are not, because prices and quantities are integers here. A price typed as "0.5" therefore counts as 0.
- Text.LowerChar: lower-casing covers Latin and the Russian Cyrillic capitals only, not the rest of Unicode.
- Text.IntToString: only integers are printed. JavaScript's number formatting of fractional and very large values is not modelled.
- Order images: the optional `image` of an order, `null` or `undefined`, becomes `None`.
- The type checks of the source are not modelled. One example: `updateOrderProduct` with a field name that is not one of the four line-item fields. The model's `FieldValue` names only the four real fields.
- Setting filters replaces the whole filter object, as the store's setter does. Callers that pass only a query and a type therefore clear all bounds.
- The toolbar's grid/list mode is kept in the panel. The toolbar source reads `viewMode`, `setViewMode` and the store's sort setter through names that the store does not provide, and it uses `useState` without importing it. The model gives the intended behaviour: the panel holds the view mode, and the sort button sets the store's sort option.
- Only `handleSubmit` of the order form is modelled. The submit button's `disabled={orderProducts.length === 0}` and the `required` customer-name and date inputs are not, so the model's submit accepts an order with no lines or a blank name.
- Currency conversion (network, floating-point rates, cache clock), image upload (file reading and canvas scaling) and the remaining pages and cards are display code and are left out.
