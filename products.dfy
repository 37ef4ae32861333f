/**
 * A product record as the catalog API delivers it, and the two derived
 * quantities both product pages compute from it: the effective unit price
 * (`priceNum` / `finalPrice`) and the available stock (`stockCount`).
 *
 * Prices are integers in minor currency units. A JavaScript field that may
 * be absent is an `Option`; a text field that may be absent or empty is a
 * string, empty when absent (every test of such a field treats both alike).
 */
module Products {
  import opened Wrappers

  datatype Product = Product(
    id: int,
    name: string,
    description: string,
    category: Option<int>,        // category id, `null` when uncategorised
    categoryName: string,
    price: Option<int>,
    discountAmount: Option<int>,
    discountedPrice: Option<int>,
    discountPercentage: Option<int>,
    stockQuantity: Option<int>,   // present iff `typeof stock_quantity === 'number'`
    isInStock: bool,
    showOnHomepage: Option<bool>,
    isActive: Option<bool>,
    image: string,
    mainImageUrl: string,
    mainImage: string)

  /** `Number(product?.price ?? 0)`. */
  function PriceNum(p: Product): (n: int)
    ensures p.price.Some? ==> n == p.price.value
    ensures p.price.None? ==> n == 0
  {
    p.price.GetOr(0)
  }

  /** `Number(product?.discount_amount ?? 0)`. */
  function DiscountAmountNum(p: Product): int {
    p.discountAmount.GetOr(0)
  }

  /** `product?.discounted_price` is truthy: present and not zero. */
  predicate HasDiscountedPrice(p: Product) {
    p.discountedPrice.Some? && p.discountedPrice.value != 0
  }

  /**
   * The effective unit price: a truthy `discounted_price` wins outright;
   * otherwise a positive `discount_amount` is subtracted from the price,
   * never going below zero; otherwise the price itself. The percentage
   * field plays no part.
   */
  function FinalPrice(p: Product): (r: int)
    ensures HasDiscountedPrice(p) ==> r == p.discountedPrice.value
    ensures !HasDiscountedPrice(p) && DiscountAmountNum(p) > 0 ==>
      r >= 0 && r >= PriceNum(p) - DiscountAmountNum(p) && (r == 0 || r == PriceNum(p) - DiscountAmountNum(p))
    ensures !HasDiscountedPrice(p) && DiscountAmountNum(p) <= 0 ==> r == PriceNum(p)
  {
    if HasDiscountedPrice(p) then p.discountedPrice.value
    else if DiscountAmountNum(p) > 0 then
      (if PriceNum(p) - DiscountAmountNum(p) > 0 then PriceNum(p) - DiscountAmountNum(p) else 0)
    else PriceNum(p)
  }

  /**
   * `stockCount` / the normalised `stock`: the numeric `stock_quantity` when
   * there is one, otherwise 1 or 0 according to `is_in_stock`.
   */
  function StockCount(p: Product): (s: int)
    ensures p.stockQuantity.Some? ==> s == p.stockQuantity.value
    ensures p.stockQuantity.None? ==> (s == 1 <==> p.isInStock) && 0 <= s <= 1
  {
    match p.stockQuantity
    case Some(q) => q
    case None => if p.isInStock then 1 else 0
  }

  /**
   * With a non-negative price and no trusted `discounted_price`, the effective
   * price lies between zero and the original price.
   */
  lemma FinalPriceBounds(p: Product)
    requires !HasDiscountedPrice(p) && PriceNum(p) >= 0
    ensures 0 <= FinalPrice(p) <= PriceNum(p)
  {
  }

  /** The percentage discount is never applied: changing it changes nothing. */
  lemma PercentageNeverApplied(p: Product, percentage: Option<int>)
    ensures FinalPrice(p.(discountPercentage := percentage)) == FinalPrice(p)
  {
  }

  /**
   * A `discounted_price` is trusted as given, even above the original price:
   * the effective price is not bounded by `price`.
   */
  lemma DiscountedPriceNotCapped()
    ensures exists p :: FinalPrice(p) > PriceNum(p)
  {
    var p := Product(1, "", "", None, "", Some(100), None, Some(120), None, None, false,
                     None, None, "", "", "");
    assert FinalPrice(p) == 120;
  }

  /** Priority: price 100, 50 percent off and a discounted price of 80 resolve to 80. */
  lemma DiscountedPriceWinsOverPercentage(p: Product)
    requires p.price == Some(100) && p.discountPercentage == Some(50)
    requires p.discountedPrice == Some(80)
    ensures FinalPrice(p) == 80
  {
  }

  /** A zero `discounted_price` is falsy and falls through to the amount rule. */
  lemma ZeroDiscountedPriceFallsThrough(p: Product)
    requires p.discountedPrice == Some(0)
    ensures FinalPrice(p) == FinalPrice(p.(discountedPrice := None))
  {
  }
}
