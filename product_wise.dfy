/** The PRODUCT_WISE processor: a percentage off the lines of target
    products that reach a minimum quantity, counting at most `maxQuantity`
    units per line. Imperative in the source: a search loop with an early
    return, and an accumulating loop with `continue`. */
module ProductWise {
  import opened Wrappers
  import opened Arith
  import opened Model

  /** The type tag this processor reports. */
  const Type: string := "PRODUCT_WISE"

  /** The line's product is one of the targets. */
  predicate Targets(p: ProductWisePayload, it: CartItem) {
    p.productIds.Some? && it.productId in p.productIds.value
  }

  /** The line reaches the minimum quantity (always, when there is none). */
  predicate MeetsMinimum(p: ProductWisePayload, it: CartItem) {
    p.minQuantity.None? || it.quantity >= p.minQuantity.value
  }

  /** The line takes part in the discount. */
  predicate Qualifies(p: ProductWisePayload, it: CartItem) {
    Targets(p, it) && MeetsMinimum(p, it)
  }

  /** The coupon applies: the payload could be read, its target list is
      present and non-empty, and some line qualifies. */
  predicate Applicable(cart: Cart, payload: Option<ProductWisePayload>) {
    && payload.Some?
    && payload.value.productIds.Some?
    && |payload.value.productIds.value| > 0
    && exists i :: 0 <= i < |cart| && Qualifies(payload.value, cart[i])
  }

  /** `isApplicable`: a search over the lines that returns at the first
      qualifying one. */
  method IsApplicable(cart: Cart, payload: Option<ProductWisePayload>) returns (applicable: bool)
    ensures applicable == Applicable(cart, payload)
  {
    if payload.None? {
      return false;
    }
    var p := payload.value;
    if p.productIds.None? || |p.productIds.value| == 0 {
      return false;
    }
    for i := 0 to |cart|
      invariant forall k :: 0 <= k < i ==> !Qualifies(p, cart[k])
    {
      if cart[i].productId in p.productIds.value {
        if p.minQuantity.None? || cart[i].quantity >= p.minQuantity.value {
          return true;
        }
      }
    }
    return false;
  }

  /** The units of a qualifying line that are discounted. */
  function EligibleQty(p: ProductWisePayload, it: CartItem): int {
    if p.maxQuantity.Some? then Min(it.quantity, p.maxQuantity.value) else it.quantity
  }

  /** One line's unrounded discount at `percent`. */
  function LineDiscount(p: ProductWisePayload, percent: real, it: CartItem): real {
    if Qualifies(p, it) then it.price * EligibleQty(p, it) as real * (percent / 100.0) else 0.0
  }

  /** The unrounded sum of the line discounts. */
  function RawDiscount(p: ProductWisePayload, percent: real, cart: Cart): real {
    if cart == [] then 0.0
    else RawDiscount(p, percent, cart[..|cart| - 1]) + LineDiscount(p, percent, cart[|cart| - 1])
  }

  /** What `calculateDiscount` returns: the raw sum rounded to cents, or 0
      when the payload could not be read, has no targets, or has no percent
      (a missing percent throws at the first qualifying line, and with no
      such line the sum is 0 anyway). */
  function Discount(cart: Cart, payload: Option<ProductWisePayload>): real {
    if payload.None? then 0.0
    else
      var p := payload.value;
      if p.productIds.None? || |p.productIds.value| == 0 || p.discountPercent.None? then 0.0
      else Round2(RawDiscount(p, p.discountPercent.value, cart))
  }

  /** `calculateDiscount`: accumulates the discount of every qualifying line
      and rounds the sum to cents. */
  method CalculateDiscount(cart: Cart, payload: Option<ProductWisePayload>) returns (discount: real)
    ensures discount == Discount(cart, payload)
  {
    if payload.None? {
      return 0.0;
    }
    var p := payload.value;
    if p.productIds.None? || |p.productIds.value| == 0 {
      return 0.0;
    }
    var total := 0.0;
    for i := 0 to |cart|
      invariant p.discountPercent.Some? ==> total == RawDiscount(p, p.discountPercent.value, cart[..i])
      invariant p.discountPercent.None? ==> total == 0.0
    {
      assert cart[..i + 1][..i] == cart[..i];
      var it := cart[i];
      if it.productId in p.productIds.value {
        var eligibleQty := it.quantity;
        if p.minQuantity.Some? && eligibleQty < p.minQuantity.value {
          continue;
        }
        if p.maxQuantity.Some? {
          eligibleQty := Min(eligibleQty, p.maxQuantity.value);
        }
        if p.discountPercent.None? {
          // `getDiscountPercent().divide(...)` throws; the processor answers 0
          return 0.0;
        }
        var itemDiscount := it.price * eligibleQty as real * (p.discountPercent.value / 100.0);
        total := total + itemDiscount;
      }
    }
    assert cart[..|cart|] == cart;
    discount := Round2(total);
  }

  /** The lines that qualify, in cart order. */
  function QualifyingLines(p: ProductWisePayload, cart: Cart): (q: Cart)
    ensures forall it :: it in q ==> it in cart && Qualifies(p, it)
  {
    if cart == [] then []
    else
      var last := cart[|cart| - 1];
      QualifyingLines(p, cart[..|cart| - 1]) + (if Qualifies(p, last) then [last] else [])
  }

  /** Lines outside the target set, or below the minimum quantity, add
      nothing: the raw discount is that of the qualifying lines alone. */
  lemma {:induction false} OnlyQualifyingLinesCount(p: ProductWisePayload, percent: real, cart: Cart)
    ensures RawDiscount(p, percent, cart) == RawDiscount(p, percent, QualifyingLines(p, cart))
  {
    if cart != [] {
      var init, last := cart[..|cart| - 1], cart[|cart| - 1];
      OnlyQualifyingLinesCount(p, percent, init);
      var q := QualifyingLines(p, init);
      if Qualifies(p, last) {
        assert (q + [last])[..|q + [last]| - 1] == q;
      } else {
        assert q + [] == q;
      }
    }
  }

  /** With no qualifying line the raw discount is 0. */
  lemma {:induction false} NoQualifyingLineNoDiscount(p: ProductWisePayload, percent: real, cart: Cart)
    requires forall i :: 0 <= i < |cart| ==> !Qualifies(p, cart[i])
    ensures RawDiscount(p, percent, cart) == 0.0
  {
    if cart != [] {
      NoQualifyingLineNoDiscount(p, percent, cart[..|cart| - 1]);
    }
  }

  /** A coupon that does not apply computes no discount. */
  lemma NotApplicableNoDiscount(cart: Cart, payload: Option<ProductWisePayload>)
    requires !Applicable(cart, payload)
    ensures Discount(cart, payload) == 0.0
  {
    if payload.Some? && payload.value.productIds.Some? && |payload.value.productIds.value| > 0
      && payload.value.discountPercent.Some?
    {
      NoQualifyingLineNoDiscount(payload.value, payload.value.discountPercent.value, cart);
    }
  }

  /** One line's discount lies between 0 and the line total. */
  lemma LineDiscountBounds(p: ProductWisePayload, percent: real, it: CartItem)
    requires it.quantity >= 0 && it.price >= 0.0
    requires 0.0 <= percent <= 100.0
    requires p.maxQuantity.Some? ==> p.maxQuantity.value >= 0
    ensures 0.0 <= LineDiscount(p, percent, it) <= LineTotal(it)
  {
    if Qualifies(p, it) {
      FractionOfUnitsBounds(it.price, EligibleQty(p, it) as real, it.quantity as real, percent / 100.0);
    }
  }

  /** For non-negative lines, a percent of at most 100 and a non-negative
      per-line cap, the raw discount lies between 0 and the cart total. */
  lemma {:induction false} RawDiscountBounds(p: ProductWisePayload, percent: real, cart: Cart)
    requires NonNegativeLines(cart)
    requires 0.0 <= percent <= 100.0
    requires p.maxQuantity.Some? ==> p.maxQuantity.value >= 0
    ensures 0.0 <= RawDiscount(p, percent, cart) <= CartTotal(cart)
  {
    if cart != [] {
      RawDiscountBounds(p, percent, cart[..|cart| - 1]);
      LineDiscountBounds(p, percent, cart[|cart| - 1]);
    }
  }

  /** Under the same conditions the discount lies between 0 and the cart
      total rounded to cents. */
  lemma DiscountBounds(cart: Cart, payload: Option<ProductWisePayload>)
    requires NonNegativeLines(cart)
    requires payload.Some? ==> 0.0 <= payload.value.discountPercent.GetOr(0.0) <= 100.0
    requires payload.Some? && payload.value.maxQuantity.Some? ==> payload.value.maxQuantity.value >= 0
    ensures 0.0 <= Discount(cart, payload) <= Round2(CartTotal(cart))
  {
    CartTotalNonNegative(cart);
    if payload.Some? && payload.value.discountPercent.Some? {
      var p := payload.value;
      RawDiscountBounds(p, p.discountPercent.value, cart);
      Round2Monotone(RawDiscount(p, p.discountPercent.value, cart), CartTotal(cart));
    }
  }

  /** Three units at 50.00 with 20% off product 1 from two units up: 30.00. */
  lemma TwentyPercentOfThreeUnits()
    ensures var cart := [CartItem(1, 3, 50.0)];
            var p := Some(ProductWisePayload(Some([1]), Some(20.0), Some(2), None));
            Applicable(cart, p) && Discount(cart, p) == 30.0
  {
    var cart := [CartItem(1, 3, 50.0)];
    var p := ProductWisePayload(Some([1]), Some(20.0), Some(2), None);
    assert Qualifies(p, cart[0]);
    assert cart[..0] == [];
    assert RawDiscount(p, 20.0, cart) == 30.0;
    Round2Idempotent(30.0);
  }
}
