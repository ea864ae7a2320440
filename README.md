# Grouped-product list and shipping-label helpers, modelled in Dafny

This project models three small pieces of logic from the WooCommerce Android
store-management app.

- **Shipping labels.** `ShippingLabel.kt` maps a stored label to the app's
  label. Product names are trimmed. Null address and refund fields become `""`.
  The refund date is kept only when present. `loadProductItems` selects the
  order items a label names. `fetchTrackingLinks` sets the label's one mutable
  field, `trackingLink`, from a list of shipment trackings, and the last
  matching tracking wins.
- **The grouped-product list adapter.** `GroupedProductListAdapter.kt` holds a
  backing list. `setProductList` replaces that list only when the new list is
  not positionally the same under `isSameProduct`. The file also holds the
  callbacks given to the list differ, item id and item count, the
  stock/status line of a row, and the load-more request made when the last
  row is bound.
- **The grouped-product view-model.** `GroupedProductListViewModel.kt`
  publishes a cached list and shows or hides the skeleton. It then always
  runs a fetch. Online, the fetch replaces the list. Offline, it triggers one
  snackbar with the offline message. Either way, both view-state flags end up
  false.

Files:

- `options.dfy`: `Option`, standing for Kotlin's nullable types.
- `products.dfy`: the product entity the list reads.
- `shipping_label.dfy`: module `ShippingLabels`.
- `grouped_product_list_adapter.dfy`: module `GroupedProductAdapter`.
- `grouped_product_list_view_model.dfy`: module `GroupedProductViewModel`.

Pure code is modelled as functions, and lemmas are proved about those
functions. Code that changes state is modelled as classes:

- `ShippingLabel` has immutable `fields` and a mutable `trackingLink`.
- `GroupedProductListAdapter` has a mutable `productList`.
- `GroupedProductListViewModel` has a mutable published list, view state,
  event log and repository-call log.

Each state-changing method is tied to a specification function of the old
state: `TrackingLinkAfter`, `ReconciledList`, `ReadCache`, `Fetch` and `Load`.

Things passed in as parameters:

- `isSameProduct` is defined in Product.kt, which is not part of this model.
  Every member that uses it takes it as a parameter. Only the lemma
  `IdenticalListIsSame` assumes anything about it: that it is reflexive.
- The repository's and network status's answers are the parameters `cached`,
  `connected` and `fetched`. The calls the view-model makes are recorded in
  `repositoryCalls`.
- The view-state delegate's first value is the constructor parameter
  `savedViewState`.

The view-model has no load-more handling of its own: it has no way to reject
a request while a fetch is running, it does not merge sparse patches, and it
does not check whether it is still alive after `onCleared`. The view state is
updated with `copy`, which is what `ReadCache` and `Fetch` model. The `init`
guard is "no list published yet". `ColdStartOfflinePublishesNothing` shows
that a load with an empty cache, while offline, publishes nothing, so that
guard alone would not stop a second load. `init` runs once per construction,
so the app never hits this case.

## Model

| member | source | states |
|---|---|---|
| `ShippingLabels.Trim` | WooCommerce/src/main/kotlin/com/woocommerce/android/model/ShippingLabel.kt:52 | `trim()`: the result is the slice of the input after its leading whitespace; everything cut off at either end is whitespace; the result neither starts nor ends with whitespace |
| `ShippingLabels.TrimIdempotent` | WooCommerce/src/main/kotlin/com/woocommerce/android/model/ShippingLabel.kt:52 | trimming a trimmed name changes nothing |
| `ShippingLabels.TrimAllWhitespace` | WooCommerce/src/main/kotlin/com/woocommerce/android/model/ShippingLabel.kt:52 | a name made only of whitespace trims to `""` |
| `ShippingLabels.TrimmedNames` | WooCommerce/src/main/kotlin/com/woocommerce/android/model/ShippingLabel.kt:52 | `map { it.trim() }`: as many names as given, and the name at each position is the trimmed given name |
| `ShippingLabels.LabelProductNamesTrimmed` | WooCommerce/src/main/kotlin/com/woocommerce/android/model/ShippingLabel.kt:52 | the mapped label has as many product names as the stored one, in the same order; each is the trimmed stored name and has no surrounding whitespace left |
| `ShippingLabels.LabelToAppModel` | WooCommerce/src/main/kotlin/com/woocommerce/android/model/ShippingLabel.kt:39-57 | the label mapper itself: the creation date is always set; the product names keep their number and have no surrounding whitespace; each address and the refund is present iff stored. `LabelFieldsMapped` and `LabelProductNamesTrimmed` state the rest of its contract |
| `ShippingLabels.LabelFieldsMapped` | WooCommerce/src/main/kotlin/com/woocommerce/android/model/ShippingLabel.kt:39-57 | the label mapper copies the id, tracking number, carrier, service, status, package, rate, refundable amount, currency and paper size; the creation date is always set; origin, destination and refund are the stored ones mapped by `OptionalAddress` and `OptionalRefund`, so each is present iff stored |
| `ShippingLabels.AddressToAppModel` | WooCommerce/src/main/kotlin/com/woocommerce/android/model/ShippingLabel.kt:59-73 | the address mapper itself: every app field is the value of the stored field that feeds it, or `""` when that is null or there is none. `AddressFieldsMapped` and `AddressNamelessFields` spell this out field by field |
| `ShippingLabels.AddressFieldsMapped` | WooCommerce/src/main/kotlin/com/woocommerce/android/model/ShippingLabel.kt:59-73 | each mapped address field is its source field's value, or `""` when that is null; `firstName` comes from `name`, `address1` from `address`, and `lastName` and `email` have no source |
| `ShippingLabels.AddressNamelessFields` | WooCommerce/src/main/kotlin/com/woocommerce/android/model/ShippingLabel.kt:59-73 | `lastName` and `email` of a mapped address are always `""` |
| `ShippingLabels.RefundToAppModel` | WooCommerce/src/main/kotlin/com/woocommerce/android/model/ShippingLabel.kt:75-80 | a null refund status becomes `""`, any other is kept; the refund date is present iff the request date is, and then equals it |
| `ShippingLabels.OptionalAddress` | WooCommerce/src/main/kotlin/com/woocommerce/android/model/ShippingLabel.kt:53-54 | `?.toAppModel()` on an address: present iff the stored address is, and then the mapped address |
| `ShippingLabels.OptionalRefund` | WooCommerce/src/main/kotlin/com/woocommerce/android/model/ShippingLabel.kt:55 | `?.toAppModel()` on a refund: present iff the stored refund is, and then the mapped refund |
| `ShippingLabels.LoadProductItems` | WooCommerce/src/main/kotlin/com/woocommerce/android/model/ShippingLabel.kt:88-89 | an item is in the result iff it is in the input and its name is one of the label's product names; each such item occurs as often as in the input, and the result is a subsequence of the input |
| `ShippingLabels.LoadProductItemsAppend` | WooCommerce/src/main/kotlin/com/woocommerce/android/model/ShippingLabel.kt:88-89 | selecting from `a + b` is selecting from `a`, then from `b` |
| `ShippingLabels.LoadProductItemsIdempotent` | WooCommerce/src/main/kotlin/com/woocommerce/android/model/ShippingLabel.kt:88-89 | selecting from a selection returns it unchanged |
| `ShippingLabels.LastMatch` | WooCommerce/src/main/kotlin/com/woocommerce/android/model/ShippingLabel.kt:98-102 | the index of the last tracking whose number is the label's; when there is none, no tracking has that number |
| `ShippingLabels.TrackingLinkIsLastMatch` | WooCommerce/src/main/kotlin/com/woocommerce/android/model/ShippingLabel.kt:98-102 | after the loop, the link is that of the last matching tracking, or the previous link when nothing matches |
| `ShippingLabels.ShippingLabel.FetchTrackingLinks` | WooCommerce/src/main/kotlin/com/woocommerce/android/model/ShippingLabel.kt:95-103 | only `trackingLink` may change; it becomes the link of the last tracking with the label's number, and stays unchanged when none has that number |
| `ShippingLabels.ShippingLabel.FromStored` | WooCommerce/src/main/kotlin/com/woocommerce/android/model/ShippingLabel.kt:12-30 | a label built from a stored one holds the mapped fields, and its tracking link is null |
| `GroupedProductAdapter.StockTextOf` | WooCommerce/src/main/kotlin/com/woocommerce/android/ui/products/GroupedProductListAdapter.kt:43-74 | stock text, by result kind. With-variations iff in stock, variable and with a positive variation count. Count iff in stock, not variable and with a positive quantity. Plain in-stock iff in stock otherwise. Out-of-stock and on-backorder iff those statuses. Raw value iff any other status |
| `GroupedProductAdapter.GetProductStockStatusText` | WooCommerce/src/main/kotlin/com/woocommerce/android/ui/products/GroupedProductListAdapter.kt:41-77 | the line is "status • stock" iff the product has a status, else the stock text alone; the stock part is always present |
| `GroupedProductAdapter.ReconciledMatchesProducts` | WooCommerce/src/main/kotlin/com/woocommerce/android/ui/products/GroupedProductListAdapter.kt:143-146 | after `setProductList`, the backing list has the new list's size, and each position holds the new product or one `isSameProduct` calls the same |
| `GroupedProductAdapter.ReconciledIdempotent` | WooCommerce/src/main/kotlin/com/woocommerce/android/ui/products/GroupedProductListAdapter.kt:128-149 | setting the same list a second time changes nothing |
| `GroupedProductAdapter.IdenticalListIsSame` | WooCommerce/src/main/kotlin/com/woocommerce/android/ui/products/GroupedProductListAdapter.kt:129-143 | with a reflexive `isSameProduct`, setting the list it already holds takes the fast path and is a no-op |
| `GroupedProductAdapter.ProductItemDiff.GetOldListSize` | WooCommerce/src/main/kotlin/com/woocommerce/android/ui/products/GroupedProductListAdapter.kt:161 | the differ's old size is the old list's length |
| `GroupedProductAdapter.ProductItemDiff.GetNewListSize` | WooCommerce/src/main/kotlin/com/woocommerce/android/ui/products/GroupedProductListAdapter.kt:163 | the differ's new size is the new list's length |
| `GroupedProductAdapter.ProductItemDiff.AreItemsTheSame` | WooCommerce/src/main/kotlin/com/woocommerce/android/ui/products/GroupedProductListAdapter.kt:158-159 | identity is remote-id equality, wherever the two entries stand; an unchanged entry is therefore always the same item |
| `GroupedProductAdapter.ProductItemDiff.AreContentsTheSame` | WooCommerce/src/main/kotlin/com/woocommerce/android/ui/products/GroupedProductListAdapter.kt:165-169 | contents are the same iff `isSameProduct` holds of the old and the new entry; `FastPathIsDiagonalContentCheck` ties this callback to the fast path |
| `GroupedProductAdapter.FastPathIsDiagonalContentCheck` | WooCommerce/src/main/kotlin/com/woocommerce/android/ui/products/GroupedProductListAdapter.kt:157-169 | the fast path holds iff the differ's sizes agree and its content callback ("contents the same" = `isSameProduct`) holds at each position against the same position |
| `GroupedProductAdapter.DisjointIdsNeverSame` | WooCommerce/src/main/kotlin/com/woocommerce/android/ui/products/GroupedProductListAdapter.kt:158-159 | follows directly from the definition of the identity callback (remote-id equality): lists with no remote id in common have no pair of "same items" |
| `GroupedProductAdapter.GroupedProductListAdapter.constructor` | WooCommerce/src/main/kotlin/com/woocommerce/android/ui/products/GroupedProductListAdapter.kt:25-35 | a new adapter has an empty backing list |
| `GroupedProductAdapter.GroupedProductListAdapter.GetItemCount` | WooCommerce/src/main/kotlin/com/woocommerce/android/ui/products/GroupedProductListAdapter.kt:39 | the item count is the backing list's length |
| `GroupedProductAdapter.GroupedProductListAdapter.GetItemId` | WooCommerce/src/main/kotlin/com/woocommerce/android/ui/products/GroupedProductListAdapter.kt:37 | a row's stable id is the remote id of the product at that position |
| `GroupedProductAdapter.GroupedProductListAdapter.IsSameList` | WooCommerce/src/main/kotlin/com/woocommerce/android/ui/products/GroupedProductListAdapter.kt:129-141 | true iff the sizes are equal and `isSameProduct` holds at every position; false whenever the sizes differ |
| `GroupedProductAdapter.GroupedProductListAdapter.SetProductList` | WooCommerce/src/main/kotlin/com/woocommerce/android/ui/products/GroupedProductListAdapter.kt:128-149 | when the new list is the same, the backing list is unchanged; otherwise it becomes exactly the new list |
| `GroupedProductAdapter.GroupedProductListAdapter.OnBindViewHolder` | WooCommerce/src/main/kotlin/com/woocommerce/android/ui/products/GroupedProductListAdapter.kt:85-126 | load more is requested iff the bound position is the last; the untitled text shows iff the name is empty; the stock/status line is that of the product; the placeholder at half size shows iff the image URL is null or empty, else the image at full size |
| `GroupedProductViewModel.ReadCache` | WooCommerce/src/main/kotlin/com/woocommerce/android/ui/products/GroupedProductListViewModel.kt:49-55 | the cache is asked once. A non-empty cached list is published with the skeleton hidden; an empty one leaves the list as it was and shows the skeleton. `isLoadingMore` keeps its value |
| `GroupedProductViewModel.Fetch` | WooCommerce/src/main/kotlin/com/woocommerce/android/ui/products/GroupedProductListViewModel.kt:60-75 | online: the list becomes the fetched one, the repository is asked once, and no event is added. Offline: the list and the repository are untouched, and one offline snackbar is appended. Both flags become false |
| `GroupedProductViewModel.LoadOutcome` | WooCommerce/src/main/kotlin/com/woocommerce/android/ui/products/GroupedProductListViewModel.kt:47-58 | a load asks the cache once, then fetches with `loadMore = false` whether or not the cache hit. The list ends as the fetched one online, else the cached one when non-empty, else unchanged. Both flags end false |
| `GroupedProductViewModel.FetchOnlyAppendsOfflineEvents` | WooCommerce/src/main/kotlin/com/woocommerce/android/ui/products/GroupedProductListViewModel.kt:66-69 | a fetch keeps the earlier events in order and adds at most one, the offline snackbar |
| `GroupedProductViewModel.ColdStartOnline` | WooCommerce/src/main/kotlin/com/woocommerce/android/ui/products/GroupedProductListViewModel.kt:47-75 | empty cache: the skeleton is shown and nothing is published; a connected fetch then publishes its result, clears both flags and adds no event |
| `GroupedProductViewModel.WarmStartOffline` | WooCommerce/src/main/kotlin/com/woocommerce/android/ui/products/GroupedProductListViewModel.kt:47-75 | cached products are published at once with the skeleton hidden; an offline fetch keeps them and triggers exactly one offline snackbar, with no fetch call |
| `GroupedProductViewModel.ColdStartOfflinePublishesNothing` | WooCommerce/src/main/kotlin/com/woocommerce/android/ui/products/GroupedProductListViewModel.kt:41-45 | empty cache and offline: no list is published, so the `init` guard "nothing published yet" would still be open |
| `GroupedProductViewModel.GroupedProductListViewModel.constructor` | WooCommerce/src/main/kotlin/com/woocommerce/android/ui/products/GroupedProductListViewModel.kt:41-45 | construction runs exactly one load (one cache read, one fetch) from an unpublished list |
| `GroupedProductViewModel.GroupedProductListViewModel.Init` | WooCommerce/src/main/kotlin/com/woocommerce/android/ui/products/GroupedProductListViewModel.kt:41-45 | loads only while no list is published; otherwise changes nothing |
| `GroupedProductViewModel.GroupedProductListViewModel.LoadGroupedProducts` | WooCommerce/src/main/kotlin/com/woocommerce/android/ui/products/GroupedProductListViewModel.kt:47-58 | the new state is the cache read followed by a non-load-more fetch; both flags end false |
| `GroupedProductViewModel.GroupedProductListViewModel.FetchProductReviews` | WooCommerce/src/main/kotlin/com/woocommerce/android/ui/products/GroupedProductListViewModel.kt:60-75 | the new state is that of `Fetch` applied to the old state |
| `GroupedProductViewModel.GroupedProductListViewModel.OnCleared` | WooCommerce/src/main/kotlin/com/woocommerce/android/ui/products/GroupedProductListViewModel.kt:36-39 | clearing the view-model asks the repository to clean up once; nothing else changes |

## Left out

- Dates are millisecond integers. Parsing the stored `dateCreated` into a number (`toLong()`) is not modelled.
- The amounts `rate` and `refundableAmount` are carried unchanged as reals. The double-to-`BigDecimal` conversion is floating point and is not modelled.
- The stored label's accessors `getProductNames()`, `getOriginAddress()`, `getDestinationAddress()` and `getRefund()` parse stored JSON. That code is not part of this model, so their results are fields of `StoredLabel`.
- The app `Address` is given only the eleven fields the mapper sets. Address.kt is not part of this model.
- `Order.Item` keeps only item id, product id and name. Order.kt is not part of this model.
- `WCOrderShipmentTrackingModel` keeps only number, provider and link.
- Parcelable support and `@IgnoredOnParcel` are serialisation and are not modelled.
- Product.kt, ProductType.kt, ProductStatus.kt and ProductStockStatus.kt are not part of this model. The product keeps only the attributes the adapter reads. Stock statuses other than the three named ones carry their raw value.
- Localised strings, `FormatUtils.formatInt`, HTML stripping and rendering, and image loading through Glide and Photon are external calls. They are replaced by the tokens `StockText`, `StockAndStatus`, `NameText` and `ImageSource`.
- The differ's algorithm (`DiffUtil.calculateDiff`) and `dispatchUpdatesTo` are library code. Only the callbacks and the fast path are modelled.
- `onCreateViewHolder`, view holders, layout parameters and `setHasStableIds` are view plumbing.
- Acting on a load-more request is not modelled: the screen's handler is a `TODO`.
- LiveData delivery, the observers' old/new comparison and the events' "handled" flag belong to the presentation layer, which is outside this model. The model records the values set and the events triggered.
- Coroutine scheduling is not modelled: the launched fetch runs as a sequential call at the end of the load.
- The repository's and network status's own behaviour is outside this model. Their answers are parameters.
- Kotlin `Int`/`Long` widths: ids, quantities and counts are only compared, with two exceptions. `onBindViewHolder` computes `itemCount - 1`, and since `itemCount` is at least 0 this cannot overflow. `imageSize / 2` halves a non-negative dimension, which means the same here as in Kotlin. So unbounded integers behave the same as Kotlin's.
- `GetItemId`, `OnBindViewHolder`, `ProductItemDiff.AreItemsTheSame` and `ProductItemDiff.AreContentsTheSame` require positions below the list size. In the source, an out-of-range `productList[position]`, `items[...]` or `result[...]` throws `IndexOutOfBoundsException`. RecyclerView and DiffUtil pass only positions below the list size, so that exception is not modelled.
- The login credential helper, the dashboard chart view, the list screen's fragment, order navigation, dependency-injection wiring, the preferences wrapper and the presenter test are UI, platform or wiring code with no logic of their own to model.
