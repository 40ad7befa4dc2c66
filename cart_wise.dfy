/** The CART_WISE processor: a percentage of the whole cart, once the cart
    reaches a threshold, optionally capped. Pure: every operation is an
    expression over the cart and the decoded payload. */
module CartWise {
  import opened Wrappers
  import opened Arith
  import opened Model

  /** The type tag this processor reports. */
  const Type: string := "CART_WISE"

  /** `isApplicable`: the payload could be read and the cart total reaches
      the threshold (a missing threshold counts as 0). */
  function IsApplicable(cart: Cart, payload: Option<CartWisePayload>): bool {
    payload.Some? && CartTotal(cart) >= payload.value.threshold.GetOr(0.0)
  }

  /** `calculateDiscount`: `total * percent / 100` to 8 decimals, capped at
      `maxDiscount` when present, then rounded to cents; 0 when the payload
      could not be read. A missing percent counts as 0. */
  function CalculateDiscount(cart: Cart, payload: Option<CartWisePayload>): (r: real)
    ensures IsCents(r)
    ensures payload.None? ==> r == 0.0
  {
    if payload.None? then 0.0
    else
      var p := payload.value;
      Round2(Capped(PercentOf(CartTotal(cart), p.discountPercent.GetOr(0.0)), p.maxDiscount))
  }

  /** `total * percent / 100`, divided to 8 decimals. */
  function PercentOf(total: real, percent: real): real {
    Round8(total * percent / 100.0)
  }

  /** `discount.min(cap)` when the cap is present: the smaller of the two,
      the discount itself on a tie. */
  function Capped(discount: real, cap: Option<real>): (r: real)
    ensures r <= discount
    ensures cap.Some? ==> r <= cap.value && (r == discount || r == cap.value)
    ensures cap.None? ==> r == discount
  {
    if cap.Some? && cap.value < discount then cap.value else discount
  }

  /** The discount never exceeds a cap that is a whole number of cents. */
  lemma DiscountCapped(cart: Cart, p: CartWisePayload)
    requires p.maxDiscount.Some? && IsCents(p.maxDiscount.value)
    ensures CalculateDiscount(cart, Some(p)) <= p.maxDiscount.value
  {
    var m := p.maxDiscount.value;
    var c := Capped(PercentOf(CartTotal(cart), p.discountPercent.GetOr(0.0)), p.maxDiscount);
    Round2Monotone(c, m);
    Round2Idempotent(m);
  }

  /** Non-negative lines, percent and cap give a non-negative discount. */
  lemma DiscountNonNegative(cart: Cart, p: CartWisePayload)
    requires NonNegativeLines(cart)
    requires p.discountPercent.GetOr(0.0) >= 0.0
    requires p.maxDiscount.Some? ==> p.maxDiscount.value >= 0.0
    ensures CalculateDiscount(cart, Some(p)) >= 0.0
  {
    CartTotalNonNegative(cart);
    MulNonNegative(CartTotal(cart), p.discountPercent.GetOr(0.0));
  }

  /** A cart with a larger total never gets a smaller discount from the same
      coupon (for a non-negative percent). */
  lemma DiscountMonotone(small: Cart, large: Cart, p: CartWisePayload)
    requires CartTotal(small) <= CartTotal(large)
    requires p.discountPercent.GetOr(0.0) >= 0.0
    ensures CalculateDiscount(small, Some(p)) <= CalculateDiscount(large, Some(p))
  {
    var percent := p.discountPercent.GetOr(0.0);
    var da, db := PercentOf(CartTotal(small), percent), PercentOf(CartTotal(large), percent);
    PercentOfMonotone(CartTotal(small), CartTotal(large), percent);
    assert Capped(da, p.maxDiscount) <= Capped(db, p.maxDiscount);
    Round2Monotone(Capped(da, p.maxDiscount), Capped(db, p.maxDiscount));
  }

  lemma PercentOfMonotone(small: real, large: real, percent: real)
    requires small <= large && percent >= 0.0
    ensures PercentOf(small, percent) <= PercentOf(large, percent)
  {
    MulMonotone(small, large, percent);
    Round8Monotone(small * percent / 100.0, large * percent / 100.0);
  }

  /** Adding lines with non-negative totals keeps a coupon applicable. */
  lemma ApplicableMonotone(cart: Cart, extra: Cart, payload: Option<CartWisePayload>)
    requires IsApplicable(cart, payload)
    requires NonNegativeLines(extra)
    ensures IsApplicable(cart + extra, payload)
  {
    CartTotalAppend(cart, extra);
    CartTotalNonNegative(extra);
  }

  /** Two units at 100.00 against a 10% coupon with threshold 150 and cap
      1000: applicable, discount 20.00. */
  lemma TenPercentOfTwoHundred()
    ensures var cart := [CartItem(1, 2, 100.0)];
            var p := Some(CartWisePayload(Some(150.0), Some(10.0), Some(1000.0)));
            IsApplicable(cart, p) && CalculateDiscount(cart, p) == 20.0
  {
    var cart := [CartItem(1, 2, 100.0)];
    assert cart[..0] == [];
    assert CartTotal(cart) == 200.0;
    assert PercentOf(200.0, 10.0) == 20.0 by {
      RoundToIntWhole(2000000000);
    }
    Round2Idempotent(20.0);
  }
}
