/** The `CouponProcessor` interface and its three implementations, as one
    datatype whose operations dispatch on the implementation. Each
    implementation reads the coupon's payload with its own schema. */
module Processors {
  import opened Wrappers
  import opened Arith
  import opened Model
  import CartWise
  import ProductWise
  import BxGy

  datatype CouponProcessor = CartWiseProcessor | ProductWiseProcessor | BxGyProcessor

  /** The processor that reports type tag `t`, if any. */
  function OfType(t: string): Option<CouponProcessor> {
    if t == CartWise.Type then Some(CartWiseProcessor)
    else if t == ProductWise.Type then Some(ProductWiseProcessor)
    else if t == BxGy.Type then Some(BxGyProcessor)
    else None
  }

  /** `type()`: the tag a coupon's `type` must carry for this processor.
      The tags are distinct: the tag names its processor. */
  function Type(p: CouponProcessor): (t: string)
    ensures OfType(t) == Some(p)
  {
    match p
    case CartWiseProcessor => CartWise.Type
    case ProductWiseProcessor => ProductWise.Type
    case BxGyProcessor => BxGy.Type
  }

  /** Only the three tags name a processor, each the one reporting it. */
  lemma OfTypeInverse(t: string)
    ensures OfType(t).Some? <==> t in {CartWise.Type, ProductWise.Type, BxGy.Type}
    ensures OfType(t).Some? ==> Type(OfType(t).value) == t
  {
  }

  /** `isApplicable`, as each implementation decides it. */
  predicate Applicable(p: CouponProcessor, cart: Cart, c: Coupon) {
    match p
    case CartWiseProcessor => CartWise.IsApplicable(cart, c.asCartWise)
    case ProductWiseProcessor => ProductWise.Applicable(cart, c.asProductWise)
    case BxGyProcessor => BxGy.IsApplicable(cart, c.asBxGy)
  }

  /** `calculateDiscount`, as each implementation computes it; always a whole
      number of cents. */
  function Discount(p: CouponProcessor, cart: Cart, c: Coupon): (r: real)
    ensures IsCents(r)
  {
    match p
    case CartWiseProcessor => CartWise.CalculateDiscount(cart, c.asCartWise)
    case ProductWiseProcessor =>
      var d := ProductWise.Discount(cart, c.asProductWise);
      assert IsCents(0.0);
      d
    case BxGyProcessor => BxGy.Discount(cart, c.asBxGy)
  }

  method IsApplicable(p: CouponProcessor, cart: Cart, c: Coupon) returns (applicable: bool)
    ensures applicable == Applicable(p, cart, c)
  {
    match p
    case CartWiseProcessor =>
      applicable := CartWise.IsApplicable(cart, c.asCartWise);
    case ProductWiseProcessor =>
      applicable := ProductWise.IsApplicable(cart, c.asProductWise);
    case BxGyProcessor =>
      applicable := BxGy.IsApplicable(cart, c.asBxGy);
  }

  method CalculateDiscount(p: CouponProcessor, cart: Cart, c: Coupon) returns (discount: real)
    ensures discount == Discount(p, cart, c)
  {
    match p
    case CartWiseProcessor =>
      discount := CartWise.CalculateDiscount(cart, c.asCartWise);
    case ProductWiseProcessor =>
      discount := ProductWise.CalculateDiscount(cart, c.asProductWise);
    case BxGyProcessor =>
      discount := BxGy.CalculateDiscount(cart, c.asBxGy);
  }

  /** `applyAndReturnTotalDiscount`: every implementation returns what
      `calculateDiscount` returns. */
  method ApplyAndReturnTotalDiscount(p: CouponProcessor, cart: Cart, c: Coupon) returns (discount: real)
    ensures discount == Discount(p, cart, c)
  {
    discount := CalculateDiscount(p, cart, c);
  }

  /** The amounts of a coupon are sane: percents between 0 and 100, caps and
      per-line unit limits not negative. */
  predicate SaneAmounts(c: Coupon) {
    && (c.asCartWise.Some? ==>
          && 0.0 <= c.asCartWise.value.discountPercent.GetOr(0.0) <= 100.0
          && (c.asCartWise.value.maxDiscount.Some? ==> c.asCartWise.value.maxDiscount.value >= 0.0))
    && (c.asProductWise.Some? ==>
          && 0.0 <= c.asProductWise.value.discountPercent.GetOr(0.0) <= 100.0
          && (c.asProductWise.value.maxQuantity.Some? ==> c.asProductWise.value.maxQuantity.value >= 0))
  }

  /** On a cart of non-negative lines and a coupon with sane amounts, every
      processor's discount is non-negative. */
  lemma DiscountNonNegative(p: CouponProcessor, cart: Cart, c: Coupon)
    requires NonNegativeLines(cart) && SaneAmounts(c)
    ensures Discount(p, cart, c) >= 0.0
  {
    match p
    case CartWiseProcessor =>
      if c.asCartWise.Some? {
        CartWise.DiscountNonNegative(cart, c.asCartWise.value);
      }
    case ProductWiseProcessor =>
      ProductWise.DiscountBounds(cart, c.asProductWise);
    case BxGyProcessor =>
      if c.asBxGy.Some? {
        BxGy.DiscountBounds(cart, c.asBxGy.value);
      }
  }
}
