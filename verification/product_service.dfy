/** The barcode lookup (services/productService.ts): the OpenFoodFacts
    response, taken as an oracle value, is normalised to the partial product
    the rest of the application uses. */
module ProductService {
  import opened Util

  /** The fields of `data.product` the lookup reads; each may be missing. */
  datatype OffProduct = OffProduct(
    productName: Option<string>,
    brands: Option<string>,
    imageUrl: Option<string>,
    ingredientsText: Option<string>)

  /** What the fetch produced: a failure (network error or a body that is
      not JSON), or a decoded body with its `status` and `product` fields. */
  datatype LookupResponse =
    | FetchFailed
    | Body(status: Option<int>, product: Option<OffProduct>)

  /** The `Partial<Product>` a successful lookup returns. */
  datatype FoundProduct = FoundProduct(
    barcode: string,
    name: string,
    brand: string,
    image: Option<string>,
    ingredientsText: string)

  const UnknownProduct := "Unknown Product"
  const UnknownBrand := "Unknown Brand"

  /** getProductByBarcode after the fetch has settled with `response`. A body
      with status 1 but no `product` object makes the field access throw,
      which the catch turns into null like every other failure. */
  function GetProductByBarcode(barcode: string, response: LookupResponse): (r: Option<FoundProduct>)
    ensures r.Some? <==> response.Body? && response.status == Some(1) && response.product.Some?
    ensures r.Some? ==> r.value.barcode == barcode
    ensures r.Some? ==> r.value.image == response.product.value.imageUrl
    ensures r.Some? ==> r.value.name != "" && r.value.brand != ""
    ensures r.Some? && Truthy(response.product.value.productName) ==> r.value.name == response.product.value.productName.value
    ensures r.Some? && !Truthy(response.product.value.productName) ==> r.value.name == UnknownProduct
    ensures r.Some? && Truthy(response.product.value.brands) ==> r.value.brand == response.product.value.brands.value
    ensures r.Some? && !Truthy(response.product.value.brands) ==> r.value.brand == UnknownBrand
    ensures r.Some? && Truthy(response.product.value.ingredientsText) ==> r.value.ingredientsText == response.product.value.ingredientsText.value
    ensures r.Some? && !Truthy(response.product.value.ingredientsText) ==> r.value.ingredientsText == ""
  {
    match response
    case FetchFailed => None
    case Body(status, product) =>
      if status == Some(1) then
        match product
        case None => None
        case Some(p) =>
          Some(FoundProduct(
            barcode,
            OrDefault(p.productName, UnknownProduct),
            OrDefault(p.brands, UnknownBrand),
            p.imageUrl,
            OrDefault(p.ingredientsText, "")))
      else None
  }
}
