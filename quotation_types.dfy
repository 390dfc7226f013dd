/**
 * Request and response records of the price-only query, with their serde defaults, and the
 * pricing formulas the quotation records document (src/quotation/types.rs).
 */
module QuotationTypes {

  import opened Wrappers
  import opened ItemPrices

  const DefaultBrand := "kei"
  const DefaultTag := "latest"

  /** A price-only item once deserialised: every defaulted field is filled in. */
  datatype PriceOnlyItem = PriceOnlyItem(
    product: Product,
    brand: string,
    tag: string,
    discount: real,
    quantity: Option<real>,
    loadingFrls: real,
    loadingPvc: real)

  /** A price-only item as it arrives, with the fields that may be missing. */
  datatype PriceOnlyItemInput = PriceOnlyItemInput(
    product: Product,
    brand: Option<string>,
    tag: Option<string>,
    discount: Option<real>,
    quantity: Option<real>,
    loadingFrls: Option<real>,
    loadingPvc: Option<real>)

  datatype PriceOnlyRequest = PriceOnlyRequest(items: seq<PriceOnlyItem>)

  datatype PriceOnlyResponseItem = PriceOnlyResponseItem(description: string, price: real, quantity: Option<real>)

  datatype PriceOnlyResponse = PriceOnlyResponse(items: seq<PriceOnlyResponseItem>)

  /** The serde defaults of a price-only item: brand "kei", tag "latest", zero discount and loadings. */
  function WithDefaults(input: PriceOnlyItemInput): (r: PriceOnlyItem)
  {
    PriceOnlyItem(
      input.product,
      input.brand.GetOr(DefaultBrand),
      input.tag.GetOr(DefaultTag),
      input.discount.GetOr(0.0),
      input.quantity,
      input.loadingFrls.GetOr(0.0),
      input.loadingPvc.GetOr(0.0))
  }

  /**
   * A field that is present is kept; a missing brand reads "kei", a missing tag "latest", and a
   * missing discount or loading 0. The quantity stays optional.
   */
  lemma DefaultsFillOnlyMissingFields(input: PriceOnlyItemInput)
    ensures WithDefaults(input).product == input.product
    ensures WithDefaults(input).brand == (if input.brand.Some? then input.brand.value else "kei")
    ensures WithDefaults(input).tag == (if input.tag.Some? then input.tag.value else "latest")
    ensures WithDefaults(input).discount == (if input.discount.Some? then input.discount.value else 0.0)
    ensures WithDefaults(input).loadingFrls == (if input.loadingFrls.Some? then input.loadingFrls.value else 0.0)
    ensures WithDefaults(input).loadingPvc == (if input.loadingPvc.Some? then input.loadingPvc.value else 0.0)
    ensures WithDefaults(input).quantity == input.quantity
  {
  }

  /** An item that carries every field is taken as it is. */
  lemma CompleteInputUnchanged(item: PriceOnlyItem)
    ensures WithDefaults(PriceOnlyItemInput(item.product, Some(item.brand), Some(item.tag), Some(item.discount),
                                            item.quantity, Some(item.loadingFrls), Some(item.loadingPvc))) == item
  {
  }

  /** The documented unit price: listed × (1 − discount) × (1 + FRLS loading) × (1 + PVC loading). */
  function DocumentedPrice(listed: real, discount: real, loadingFrls: real, loadingPvc: real): real
  {
    listed * (1.0 - discount) * (1.0 + loadingFrls) * (1.0 + loadingPvc)
  }

  /** The documented amount of a line: unit price × quantity. */
  function DocumentedAmount(price: real, quantity: real): real
  {
    price * quantity
  }

  /** The documented tax: 18% of the total with delivery. */
  function DocumentedTaxes(totalWithDelivery: real): real
  {
    totalWithDelivery * 0.18
  }

  /** The documented grand total: the total with delivery plus its tax. */
  function DocumentedGrandTotal(totalWithDelivery: real): real
  {
    totalWithDelivery + DocumentedTaxes(totalWithDelivery)
  }

  /**
   * The documented formulas: the order in which discount and loadings are applied does not
   * matter, no discount and no loading leave the listed price, and the grand total is 118% of the
   * total with delivery.
   */
  lemma DocumentedFormulas(listed: real, discount: real, frls: real, pvc: real, total: real)
    ensures DocumentedPrice(listed, discount, frls, pvc)
      == listed * (1.0 + pvc) * (1.0 + frls) * (1.0 - discount)
    ensures DocumentedPrice(listed, 0.0, 0.0, 0.0) == listed
    ensures DocumentedGrandTotal(total) == 1.18 * total
  {
  }
}
