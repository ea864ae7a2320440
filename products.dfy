/**
 * The app-level product entity read by the grouped-product list.
 * Product.kt, ProductType.kt, ProductStatus.kt and ProductStockStatus.kt are not
 * part of this model; only the attributes the list adapter reads are kept.
 */
module Products {
  import opened Options

  /** The WooCommerce product types; only VARIABLE is told apart by the list. */
  datatype ProductType = Simple | Grouped | External | Variable

  /** Publication status of a product; the list shows only its localised label. */
  datatype ProductStatus = ProductStatus(value: string)

  /** Stock status: the three named ones, and any other status with its raw value. */
  datatype StockStatus = InStock | OutOfStock | OnBackorder | Other(value: string)

  datatype Product = Product(
    remoteId: int,
    name: string,
    status: Option<ProductStatus>,
    stockStatus: StockStatus,
    productType: ProductType,
    numVariations: int,
    stockQuantity: int,
    firstImageUrl: Option<string>
  )
}
