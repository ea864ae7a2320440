/**
 * The list adapter of the grouped-product screen: its backing product list,
 * the fast path that skips a redraw when the new list is positionally the
 * same, the callbacks the list differ asks, the stock/status line of a row and
 * the load-more request when the last row is bound.
 *
 * `isSameProduct` belongs to Product.kt, which is not part of this model: every
 * member that uses it takes it as a parameter. Only `IdenticalListIsSame`
 * assumes anything about it, namely that it is reflexive.
 * Localised strings, HTML stripping and image loading are represented by the
 * tokens below.
 */
module GroupedProductAdapter {
  import opened Options
  import opened Products

  // ---------------------------------------------------------------------------
  // Stock and status line (`getProductStockStatusText`)
  // ---------------------------------------------------------------------------

  /** The stock part of a row's second line, one token per string resource. */
  datatype StockText =
    | InStockWithVariations(numVariations: int)  // product_stock_status_instock_with_variations
    | StockCount(quantity: int)                  // product_stock_count
    | InStockText                                // InStock.stringResource
    | OutOfStockText                             // OutOfStock.stringResource
    | OnBackorderText                            // OnBackorder.stringResource
    | Raw(value: string)                         // the status's own value

  /** The whole line: "status • stock" when the product has a status, else the stock part. */
  datatype StockAndStatus =
    | Bulleted(status: ProductStatus, stock: StockText)
    | StockOnly(stock: StockText)

  /**
   * The `when (product.stockStatus)` of `getProductStockStatusText`, stated
   * one result kind at a time.
   */
  function StockTextOf(p: Product): (r: StockText)
    ensures r.InStockWithVariations? <==>
              p.stockStatus == InStock && p.productType == Variable && p.numVariations > 0
    ensures r.InStockWithVariations? ==> r.numVariations == p.numVariations
    ensures r.StockCount? <==>
              p.stockStatus == InStock && p.productType != Variable && p.stockQuantity > 0
    ensures r.StockCount? ==> r.quantity == p.stockQuantity
    ensures r == InStockText <==>
              p.stockStatus == InStock &&
              (if p.productType == Variable then p.numVariations <= 0 else p.stockQuantity <= 0)
    ensures r == OutOfStockText <==> p.stockStatus == OutOfStock
    ensures r == OnBackorderText <==> p.stockStatus == OnBackorder
    ensures r.Raw? <==> p.stockStatus.Other?
    ensures r.Raw? ==> r.value == p.stockStatus.value
  {
    match p.stockStatus
    case InStock =>
      if p.productType == Variable then
        if p.numVariations > 0 then InStockWithVariations(p.numVariations) else InStockText
      else
        if p.stockQuantity > 0 then StockCount(p.stockQuantity) else InStockText
    case OutOfStock => OutOfStockText
    case OnBackorder => OnBackorderText
    case Other(v) => Raw(v)
  }

  /**
   * `getProductStockStatusText`. The source declares the result nullable, but
   * every branch produces a text, so a row always shows this line.
   */
  function GetProductStockStatusText(p: Product): (r: StockAndStatus)
    ensures r.stock == StockTextOf(p)
    ensures r.Bulleted? <==> p.status.Some?
    ensures r.Bulleted? ==> r.status == p.status.value
  {
    match p.status
    case Some(s) => Bulleted(s, StockTextOf(p))
    case None => StockOnly(StockTextOf(p))
  }

  // ---------------------------------------------------------------------------
  // Positional sameness (`isSameList`) and the list after `setProductList`
  // ---------------------------------------------------------------------------

  /** Same size, and each position holds products that `isSameProduct` calls the same. */
  predicate SameList(current: seq<Product>, products: seq<Product>, isSameProduct: (Product, Product) -> bool) {
    |products| == |current| &&
    forall i :: 0 <= i < |products| ==> isSameProduct(current[i], products[i])
  }

  /** The backing list after `setProductList(products)`: kept when the same, else replaced. */
  function ReconciledList(current: seq<Product>, products: seq<Product>, isSameProduct: (Product, Product) -> bool): seq<Product>
  {
    if SameList(current, products, isSameProduct) then current else products
  }

  /**
   * After `setProductList(products)` the backing list has the size of
   * `products`, and each position holds either the new product or an old one
   * that `isSameProduct` calls the same.
   */
  lemma ReconciledMatchesProducts(current: seq<Product>, products: seq<Product>, isSameProduct: (Product, Product) -> bool)
    ensures |ReconciledList(current, products, isSameProduct)| == |products|
    ensures forall i :: 0 <= i < |products| ==>
              ReconciledList(current, products, isSameProduct)[i] == products[i] ||
              isSameProduct(ReconciledList(current, products, isSameProduct)[i], products[i])
  {
  }

  /** Setting the same list twice in a row leaves what setting it once left. */
  lemma ReconciledIdempotent(current: seq<Product>, products: seq<Product>, isSameProduct: (Product, Product) -> bool)
    ensures var once := ReconciledList(current, products, isSameProduct);
            ReconciledList(once, products, isSameProduct) == once
  {
  }

  /**
   * When `isSameProduct` is reflexive, setting a list equal to the current one
   * is a no-op (the fast path for identical lists).
   */
  lemma IdenticalListIsSame(current: seq<Product>, isSameProduct: (Product, Product) -> bool)
    requires forall p :: isSameProduct(p, p)
    ensures SameList(current, current, isSameProduct)
    ensures ReconciledList(current, current, isSameProduct) == current
  {
  }

  // ---------------------------------------------------------------------------
  // Diff callbacks (`ProductItemDiffUtil`)
  // ---------------------------------------------------------------------------

  /** The callback object handed to the list differ: the old and the new list. */
  datatype ProductItemDiff = ProductItemDiff(items: seq<Product>, result: seq<Product>) {

    function GetOldListSize(): (n: nat)
      ensures n == |items|
    {
      |items|
    }

    function GetNewListSize(): (n: nat)
      ensures n == |result|
    {
      |result|
    }

    /**
     * Identity: the two entries carry the same remote id, wherever they stand;
     * in particular an entry that is unchanged is always the same item.
     */
    predicate AreItemsTheSame(oldItemPosition: nat, newItemPosition: nat): (same: bool)
      requires oldItemPosition < |items| && newItemPosition < |result|
      ensures same <==> items[oldItemPosition].remoteId == result[newItemPosition].remoteId
      ensures items[oldItemPosition] == result[newItemPosition] ==> same
    {
      items[oldItemPosition].remoteId == result[newItemPosition].remoteId
    }

    /** Content: `isSameProduct` holds of the two entries. */
    predicate AreContentsTheSame(oldItemPosition: nat, newItemPosition: nat, isSameProduct: (Product, Product) -> bool): (same: bool)
      requires oldItemPosition < |items| && newItemPosition < |result|
      ensures same <==> isSameProduct(items[oldItemPosition], result[newItemPosition])
    {
      isSameProduct(items[oldItemPosition], result[newItemPosition])
    }
  }

  /**
   * The fast path skips the differ exactly when the differ's list sizes agree
   * and its content callback holds at every position against the same position.
   */
  lemma FastPathIsDiagonalContentCheck(current: seq<Product>, products: seq<Product>, isSameProduct: (Product, Product) -> bool)
    ensures var d := ProductItemDiff(current, products);
      SameList(current, products, isSameProduct) <==>
        d.GetOldListSize() == d.GetNewListSize() &&
        forall i :: 0 <= i < d.GetNewListSize() ==> d.AreContentsTheSame(i, i, isSameProduct)
  {
    var d := ProductItemDiff(current, products);
    if SameList(current, products, isSameProduct) {
      forall i | 0 <= i < d.GetNewListSize() ensures d.AreContentsTheSame(i, i, isSameProduct) {
        assert isSameProduct(current[i], products[i]);
      }
    } else if d.GetOldListSize() == d.GetNewListSize() {
      var i :| 0 <= i < |products| && !isSameProduct(current[i], products[i]);
      assert !d.AreContentsTheSame(i, i, isSameProduct);
    }
  }

  /**
   * Entries of lists with no remote id in common are never the same item.
   * This follows directly from the definition of `AreItemsTheSame`.
   */
  lemma DisjointIdsNeverSame(items: seq<Product>, result: seq<Product>)
    requires forall i, j :: 0 <= i < |items| && 0 <= j < |result| ==> items[i].remoteId != result[j].remoteId
    ensures forall i, j :: 0 <= i < |items| && 0 <= j < |result| ==> !ProductItemDiff(items, result).AreItemsTheSame(i, j)
  {
  }

  // ---------------------------------------------------------------------------
  // Binding a row (`onBindViewHolder`)
  // ---------------------------------------------------------------------------

  /** The product name shown: the untitled text for an empty name, else the name without HTML. */
  datatype NameText = Untitled | StrippedName(raw: string)

  /** The image shown: the product placeholder, or the product's first image. */
  datatype ImageSource = Placeholder | FirstImage(url: string)

  /** What binding a row shows, and whether it asked the listener to load more. */
  datatype RowBinding = RowBinding(
    name: NameText,
    stockAndStatus: StockAndStatus,
    image: ImageSource,
    imageSide: int,
    requestsLoadMore: bool
  )

  class GroupedProductListAdapter {
    /** `R.dimen.image_minor_100` in pixels. */
    const imageSize: nat
    var productList: seq<Product>

    constructor(imageSize: nat)
      ensures this.imageSize == imageSize
      ensures productList == []
    {
      this.imageSize := imageSize;
      productList := [];
    }

    /** `getItemCount`: the number of products in the backing list. */
    function GetItemCount(): (n: nat)
      reads this
      ensures n == |productList|
    {
      |productList|
    }

    /** `getItemId`: the stable id of a row is its product's remote id. */
    function GetItemId(position: nat): (id: int)
      reads this
      requires position < |productList|
      ensures id == productList[position].remoteId
    {
      productList[position].remoteId
    }

    /** `isSameList`, the local function of `setProductList`. */
    method IsSameList(products: seq<Product>, isSameProduct: (Product, Product) -> bool) returns (same: bool)
      ensures same <==> SameList(productList, products, isSameProduct)
      ensures same ==> |products| == |productList|
    {
      if |products| != |productList| {
        return false;
      }
      for index := 0 to |products|
        invariant forall i :: 0 <= i < index ==> isSameProduct(productList[i], products[i])
      {
        var oldItem := productList[index];
        var newItem := products[index];
        if !isSameProduct(oldItem, newItem) {
          return false;
        }
      }
      return true;
    }

    /**
     * `setProductList`: unless the new list is the same, clear the backing
     * list and add all new products (the differ's edit script is sent to the
     * view, which is not modelled).
     */
    method SetProductList(products: seq<Product>, isSameProduct: (Product, Product) -> bool)
      modifies this`productList
      ensures productList == ReconciledList(old(productList), products, isSameProduct)
      ensures SameList(old(productList), products, isSameProduct) ==> productList == old(productList)
      ensures !SameList(old(productList), products, isSameProduct) ==> productList == products
    {
      var same := IsSameList(products, isSameProduct);
      if !same {
        productList := [];
        productList := productList + products;
      }
    }

    /**
     * `onBindViewHolder`: what the row at `position` shows, and a load-more
     * request exactly when it is the last row.
     */
    method OnBindViewHolder(position: nat) returns (row: RowBinding)
      requires position < |productList|
      ensures row.requestsLoadMore <==> position == |productList| - 1
      ensures row.name == Untitled <==> productList[position].name == ""
      ensures row.name.StrippedName? ==> row.name.raw == productList[position].name
      ensures row.stockAndStatus == GetProductStockStatusText(productList[position])
      ensures row.image == Placeholder <==>
                productList[position].firstImageUrl.None? || productList[position].firstImageUrl == Some("")
      ensures row.image.FirstImage? ==> Some(row.image.url) == productList[position].firstImageUrl
      ensures row.imageSide == if row.image == Placeholder then imageSize / 2 else imageSize
    {
      var product := productList[position];
      var name := if product.name == "" then Untitled else StrippedName(product.name);
      var stockAndStatus := GetProductStockStatusText(product);
      var image: ImageSource;
      var side: int;
      if product.firstImageUrl.None? || product.firstImageUrl.value == "" {
        side := imageSize / 2;
        image := Placeholder;
      } else {
        side := imageSize;
        image := FirstImage(product.firstImageUrl.value);
      }
      var loadMore := position == GetItemCount() - 1;
      row := RowBinding(name, stockAndStatus, image, side, loadMore);
    }
  }
}
