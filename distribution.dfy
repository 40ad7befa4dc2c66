/** The per-line distributors `applyCoupon` uses once a coupon has passed
    its checks: each turns the cart into output lines carrying discounts, one
    strategy per coupon type. In the source each appends to a list it is
    given; here each returns the lines it would append. */
module Distribution {
  import opened Wrappers
  import opened Arith
  import opened Model
  import ProductWise
  import BxGy

  // ---------------------------------------------------------------------
  // Lines with no discount

  /** Every cart line, in order, carried with a zero discount: the fallback
      branch and every exception handler of the distributors. */
  function ZeroLines(cart: Cart): seq<UpdatedItem> {
    if cart == [] then [] else ZeroLines(cart[..|cart| - 1]) + [Carried(cart[|cart| - 1], 0.0)]
  }

  /** The output lines copy the cart lines' product, quantity and price, one
      for one and in order. */
  predicate Carries(cart: Cart, items: seq<UpdatedItem>) {
    && |items| == |cart|
    && forall i :: 0 <= i < |cart| ==>
         && items[i].productId == cart[i].productId
         && items[i].quantity == cart[i].quantity
         && items[i].price == cart[i].price
  }

  /** Every line is a whole number of cents. */
  predicate AllCents(items: seq<UpdatedItem>) {
    forall i :: 0 <= i < |items| ==> IsCents(items[i].totalDiscount)
  }

  /** Appending a line to carried lines carries one more cart line. */
  lemma CarriesAppend(cart: Cart, items: seq<UpdatedItem>, it: CartItem, d: real)
    requires Carries(cart, items)
    ensures Carries(cart + [it], items + [Carried(it, d)])
  {
    var c, u := cart + [it], items + [Carried(it, d)];
    forall i | 0 <= i < |c|
      ensures u[i].productId == c[i].productId && u[i].quantity == c[i].quantity && u[i].price == c[i].price
    {
      if i < |cart| {
        assert u[i] == items[i] && c[i] == cart[i];
      }
    }
  }

  /** The zero lines carry the cart and add up to nothing. */
  lemma {:induction false} ZeroLinesCarry(cart: Cart)
    ensures Carries(cart, ZeroLines(cart))
    ensures forall i :: 0 <= i < |cart| ==> ZeroLines(cart)[i].totalDiscount == 0.0
    ensures SumDiscounts(ZeroLines(cart)) == 0.0
  {
    if cart != [] {
      var init := cart[..|cart| - 1];
      ZeroLinesCarry(init);
      CarriesAppend(init, ZeroLines(init), cart[|cart| - 1], 0.0);
      assert init + [cart[|cart| - 1]] == cart;
      var z := ZeroLines(cart);
      assert forall i :: 0 <= i < |init| ==> z[i] == ZeroLines(init)[i];
      SumDiscountsAppend(ZeroLines(init), [Carried(cart[|cart| - 1], 0.0)]);
      assert [Carried(cart[|cart| - 1], 0.0)][..0] == [];
    }
  }

  /** The loop the fallback branch and the handlers run. */
  method ZeroDiscountLines(cart: Cart) returns (updated: seq<UpdatedItem>)
    ensures updated == ZeroLines(cart)
  {
    updated := [];
    for i := 0 to |cart|
      invariant updated == ZeroLines(cart[..i])
    {
      assert cart[..i + 1][..i] == cart[..i];
      updated := updated + [Carried(cart[i], 0.0)];
    }
    assert cart[..|cart|] == cart;
  }

  /** The sum of lines of whole cents is whole cents. */
  lemma {:induction false} SumOfCents(items: seq<UpdatedItem>)
    requires AllCents(items)
    ensures IsCents(SumDiscounts(items))
  {
    if items == [] {
      assert IsCents(0.0);
    } else {
      var init := items[..|items| - 1];
      assert AllCents(init) by {
        forall i | 0 <= i < |init| ensures IsCents(init[i].totalDiscount) {
          assert init[i] == items[i];
        }
      }
      SumOfCents(init);
      CentsAddSub(SumDiscounts(init), items[|items| - 1].totalDiscount);
    }
  }

  // ---------------------------------------------------------------------
  // CART_WISE: proportional shares, the last line takes the remainder

  /** One line's share: `lineTotal * discount / total`, divided to 8
      decimals and then rounded to cents. */
  function Share(it: CartItem, discount: real, total: real): real
    requires total != 0.0
  {
    Rounded(LineTotal(it) * discount / total)
  }

  /** An exact proportion divided to 8 decimals, then rounded to cents. */
  function Rounded(x: real): real {
    Round2(Round8(x))
  }

  /** Every line carried with its own share. */
  function Shares(cart: Cart, discount: real, total: real): seq<UpdatedItem>
    requires total != 0.0
  {
    if cart == [] then []
    else
      var last := cart[|cart| - 1];
      Shares(cart[..|cart| - 1], discount, total) + [Carried(last, Share(last, discount, total))]
  }

  /** What `applyCartWiseDiscount` appends: zero lines for a zero total;
      otherwise every line but the last with its share, and the last with
      whatever of the discount the others did not take. */
  function CartWiseLines(cart: Cart, discount: real, total: real): seq<UpdatedItem> {
    if total == 0.0 then ZeroLines(cart)
    else if cart == [] then []
    else
      var shares := Shares(cart[..|cart| - 1], discount, total);
      shares + [Carried(cart[|cart| - 1], discount - SumDiscounts(shares))]
  }

  /** `applyCartWiseDiscount`: one pass over the lines, keeping the running
      sum of the shares handed out. */
  method ApplyCartWiseDiscount(cart: Cart, totalDiscount: real, totalPrice: real) returns (updated: seq<UpdatedItem>)
    ensures updated == CartWiseLines(cart, totalDiscount, totalPrice)
  {
    if totalPrice == 0.0 {
      updated := ZeroDiscountLines(cart);
      return;
    }
    var distributed := 0.0;
    updated := [];
    for i := 0 to |cart|
      invariant i < |cart| ==> updated == Shares(cart[..i], totalDiscount, totalPrice)
      invariant i == |cart| ==> updated == CartWiseLines(cart, totalDiscount, totalPrice)
      invariant distributed == SumDiscounts(updated)
    {
      var it := cart[i];
      var share := Share(it, totalDiscount, totalPrice);
      if i == |cart| - 1 {
        share := totalDiscount - distributed;
      }
      distributed := distributed + share;
      CartWiseStep(cart, i, totalDiscount, totalPrice, updated, share);
      updated := updated + [Carried(it, share)];
    }
  }

  /** One pass of the loop: a line before the last takes its share, the last
      takes what is left, and the running sum grows by the share. */
  lemma CartWiseStep(cart: Cart, i: int, discount: real, total: real, shares: seq<UpdatedItem>, share: real)
    requires total != 0.0 && 0 <= i < |cart|
    requires shares == Shares(cart[..i], discount, total)
    requires share == if i < |cart| - 1 then Share(cart[i], discount, total) else discount - SumDiscounts(shares)
    ensures var next := shares + [Carried(cart[i], share)];
            && SumDiscounts(next) == SumDiscounts(shares) + share
            && (i + 1 < |cart| ==> next == Shares(cart[..i + 1], discount, total))
            && (i + 1 == |cart| ==> next == CartWiseLines(cart, discount, total))
  {
    SumDiscountsSnoc(shares, Carried(cart[i], share));
    if i < |cart| - 1 {
      SharesSnoc(cart, i, discount, total);
    } else {
      assert cart[..|cart| - 1] == cart[..i];
    }
  }

  lemma SharesSnoc(cart: Cart, i: int, discount: real, total: real)
    requires total != 0.0 && 0 <= i < |cart|
    ensures Shares(cart[..i + 1], discount, total) == Shares(cart[..i], discount, total) + [Carried(cart[i], Share(cart[i], discount, total))]
  {
    assert cart[..i + 1][..i] == cart[..i];
  }

  lemma {:induction false} SharesCarry(cart: Cart, discount: real, total: real)
    requires total != 0.0
    ensures Carries(cart, Shares(cart, discount, total))
    ensures forall i :: 0 <= i < |cart| ==> Shares(cart, discount, total)[i].totalDiscount == Share(cart[i], discount, total)
    ensures AllCents(Shares(cart, discount, total))
  {
    if cart != [] {
      var init, last := cart[..|cart| - 1], cart[|cart| - 1];
      var s := Shares(init, discount, total);
      SharesCarry(init, discount, total);
      CarriesAppend(init, s, last, Share(last, discount, total));
      assert init + [last] == cart;
      var u := Shares(cart, discount, total);
      forall i | 0 <= i < |cart|
        ensures u[i].totalDiscount == Share(cart[i], discount, total)
        ensures IsCents(u[i].totalDiscount)
      {
        if i < |init| {
          assert u[i] == s[i] && cart[i] == init[i];
        }
      }
    }
  }

  /** The cart-wise lines carry the cart; every line but the last holds its
      share; they are whole cents when the discount is. */
  lemma CartWiseLinesCarry(cart: Cart, discount: real, total: real)
    ensures Carries(cart, CartWiseLines(cart, discount, total))
    ensures total != 0.0 ==> forall i :: 0 <= i < |cart| - 1 ==>
              CartWiseLines(cart, discount, total)[i].totalDiscount == Share(cart[i], discount, total)
    ensures IsCents(discount) ==> AllCents(CartWiseLines(cart, discount, total))
  {
    if total == 0.0 {
      ZeroLinesCarry(cart);
      var z := ZeroLines(cart);
      forall i | 0 <= i < |z| ensures IsCents(z[i].totalDiscount) {
        assert z[i].totalDiscount == 0.0;
      }
    } else if cart != [] {
      var init, last := cart[..|cart| - 1], cart[|cart| - 1];
      var s := Shares(init, discount, total);
      SharesCarry(init, discount, total);
      CarriesAppend(init, s, last, discount - SumDiscounts(s));
      assert init + [last] == cart;
      var u := CartWiseLines(cart, discount, total);
      forall i | 0 <= i < |cart| - 1
        ensures u[i].totalDiscount == Share(cart[i], discount, total)
      {
        assert u[i] == s[i] && cart[i] == init[i];
      }
      if IsCents(discount) {
        SumOfCents(s);
        CentsAddSub(discount, SumDiscounts(s));
        forall i | 0 <= i < |u| ensures IsCents(u[i].totalDiscount) {
          if i < |s| {
            assert u[i] == s[i];
          }
        }
      }
    }
  }

  /** No rounding drift: a non-empty cart with a non-zero total gets exactly
      the discount, spread over its lines; a zero total gets nothing. */
  lemma CartWiseLinesExact(cart: Cart, discount: real, total: real)
    ensures SumDiscounts(CartWiseLines(cart, discount, total)) == (if total == 0.0 || cart == [] then 0.0 else discount)
  {
    if total == 0.0 {
      ZeroLinesCarry(cart);
    } else if cart != [] {
      var s := Shares(cart[..|cart| - 1], discount, total);
      var u := s + [Carried(cart[|cart| - 1], discount - SumDiscounts(s))];
      assert u[..|u| - 1] == s;
    }
  }

  /** A share is the line's exact proportion `x` of the discount to within
      half a cent, plus the half unit of the eighth decimal lost dividing. */
  lemma ShareNearProportion(x: real)
    ensures x - 0.005000005 <= Rounded(x) <= x + 0.005000005
  {
    RoundedTwice(x, Round8(x), Round2(Round8(x)));
  }

  // ---------------------------------------------------------------------
  // PRODUCT_WISE: per-line discounts, the first line takes the residual

  /** The units of a target line that count: none below the minimum, at
      most `maxQuantity`. */
  function HelperEligibleQty(p: ProductWisePayload, it: CartItem): int {
    var atMinimum := if p.minQuantity.Some? && it.quantity < p.minQuantity.value then 0 else it.quantity;
    if p.maxQuantity.Some? then Min(atMinimum, p.maxQuantity.value) else atMinimum
  }

  /** One line's unrounded discount as the distributor recomputes it: only
      for a target line with a positive count of units and a percent. */
  function HelperLineDiscount(p: ProductWisePayload, it: CartItem): real {
    if ProductWise.Targets(p, it) && HelperEligibleQty(p, it) > 0 && p.discountPercent.Some?
    then it.price * HelperEligibleQty(p, it) as real * (p.discountPercent.value / 100.0)
    else 0.0
  }

  /** The unrounded sum of the recomputed line discounts. */
  function HelperRaw(p: ProductWisePayload, cart: Cart): real {
    if cart == [] then 0.0
    else HelperRaw(p, cart[..|cart| - 1]) + HelperLineDiscount(p, cart[|cart| - 1])
  }

  /** Every line with its recomputed discount rounded to cents. */
  function RoundedLines(p: ProductWisePayload, cart: Cart): seq<UpdatedItem> {
    if cart == [] then []
    else
      var last := cart[|cart| - 1];
      RoundedLines(p, cart[..|cart| - 1]) + [Carried(last, Round2(HelperLineDiscount(p, last)))]
  }

  /** The residual: the total discount less the unrounded sum, to cents. */
  function Residual(p: ProductWisePayload, cart: Cart, discount: real): real {
    Round2(discount - HelperRaw(p, cart))
  }

  /** What `applyProductWiseDiscount` appends: the rounded lines, the first
      one adjusted by a non-zero residual; zero lines when the payload
      cannot be read. */
  function ProductWiseLines(cart: Cart, payload: Option<ProductWisePayload>, discount: real): seq<UpdatedItem> {
    if payload.None? then ZeroLines(cart)
    else
      var lines := RoundedLines(payload.value, cart);
      var diff := Residual(payload.value, cart, discount);
      if diff != 0.0 && lines != [] then lines[0 := lines[0].(totalDiscount := lines[0].totalDiscount + diff)]
      else lines
  }

  /** `applyProductWiseDiscount`: recomputes each line's discount while
      summing the unrounded values, then reconciles on the first line. */
  method ApplyProductWiseDiscount(cart: Cart, payload: Option<ProductWisePayload>, totalDiscount: real)
    returns (updated: seq<UpdatedItem>)
    ensures updated == ProductWiseLines(cart, payload, totalDiscount)
  {
    if payload.None? {
      updated := ZeroDiscountLines(cart);
      return;
    }
    var pw := payload.value;
    var appliedTotal := 0.0;
    updated := [];
    for i := 0 to |cart|
      invariant updated == RoundedLines(pw, cart[..i])
      invariant appliedTotal == HelperRaw(pw, cart[..i])
    {
      var it := cart[i];
      var itemDiscount := ItemDiscount(pw, it);
      ProductWiseSnoc(pw, cart, i);
      appliedTotal := appliedTotal + itemDiscount;
      updated := updated + [Carried(it, Round2(itemDiscount))];
    }
    assert cart[..|cart|] == cart;
    var diff := Round2(totalDiscount - appliedTotal);
    if diff != 0.0 && |updated| > 0 {
      var first := updated[0];
      updated := updated[0 := first.(totalDiscount := first.totalDiscount + diff)];
    }
  }

  /** The loop body's discount for one line: nothing for a line that is not
      a target, is under the minimum, or has no percent; otherwise, on a line
      of non-negative quantity under a non-negative cap, the processor's
      discount for that line. */
  method ItemDiscount(pw: ProductWisePayload, it: CartItem) returns (itemDiscount: real)
    ensures !ProductWise.Targets(pw, it) ==> itemDiscount == 0.0
    ensures !ProductWise.MeetsMinimum(pw, it) ==> itemDiscount == 0.0
    ensures pw.discountPercent.None? ==> itemDiscount == 0.0
    ensures pw.discountPercent.Some? && it.quantity >= 0 && (pw.maxQuantity.Some? ==> pw.maxQuantity.value >= 0) ==>
              itemDiscount == ProductWise.LineDiscount(pw, pw.discountPercent.value, it)
    ensures itemDiscount == HelperLineDiscount(pw, it)
  {
    if pw.discountPercent.Some? && it.quantity >= 0 && (pw.maxQuantity.Some? ==> pw.maxQuantity.value >= 0) {
      HelperLineAgrees(pw, it);
    }
    itemDiscount := 0.0;
    if pw.productIds.Some? && it.productId in pw.productIds.value {
      var eligibleQty := it.quantity;
      if pw.minQuantity.Some? && eligibleQty < pw.minQuantity.value {
        eligibleQty := 0;
      }
      if pw.maxQuantity.Some? {
        eligibleQty := Min(eligibleQty, pw.maxQuantity.value);
      }
      if eligibleQty > 0 && pw.discountPercent.Some? {
        itemDiscount := it.price * eligibleQty as real * (pw.discountPercent.value / 100.0);
      }
    }
  }

  lemma ProductWiseSnoc(p: ProductWisePayload, cart: Cart, i: int)
    requires 0 <= i < |cart|
    ensures RoundedLines(p, cart[..i + 1]) == RoundedLines(p, cart[..i]) + [Carried(cart[i], Round2(HelperLineDiscount(p, cart[i])))]
    ensures HelperRaw(p, cart[..i + 1]) == HelperRaw(p, cart[..i]) + HelperLineDiscount(p, cart[i])
  {
    assert cart[..i + 1][..i] == cart[..i];
  }

  lemma {:induction false} RoundedLinesCarry(p: ProductWisePayload, cart: Cart)
    ensures Carries(cart, RoundedLines(p, cart))
    ensures forall i :: 0 <= i < |cart| ==> RoundedLines(p, cart)[i].totalDiscount == Round2(HelperLineDiscount(p, cart[i]))
  {
    if cart != [] {
      var init, last := cart[..|cart| - 1], cart[|cart| - 1];
      var r := RoundedLines(p, init);
      RoundedLinesCarry(p, init);
      CarriesAppend(init, r, last, Round2(HelperLineDiscount(p, last)));
      assert init + [last] == cart;
      var u := RoundedLines(p, cart);
      forall i | 0 <= i < |cart|
        ensures u[i].totalDiscount == Round2(HelperLineDiscount(p, cart[i]))
      {
        if i < |init| {
          assert u[i] == r[i] && cart[i] == init[i];
        }
      }
    }
  }

  /** The product-wise lines carry the cart; each holds its recomputed
      discount rounded to cents, the first one plus the residual. */
  lemma ProductWiseLinesCarry(cart: Cart, p: ProductWisePayload, discount: real)
    ensures var u := ProductWiseLines(cart, Some(p), discount);
            && Carries(cart, u)
            && (forall i :: 0 < i < |cart| ==> u[i].totalDiscount == Round2(HelperLineDiscount(p, cart[i])))
            && (cart != [] ==> u[0].totalDiscount == Round2(HelperLineDiscount(p, cart[0])) + Residual(p, cart, discount))
  {
    RoundedLinesCarry(p, cart);
  }

  /** Where the distributor's recomputation and the processor's agree: on
      lines of non-negative quantity, with a non-negative unit cap and a
      percent present, the two unrounded sums are equal. */
  lemma {:induction false} HelperAgreesWithProcessor(p: ProductWisePayload, cart: Cart)
    requires p.discountPercent.Some?
    requires forall i :: 0 <= i < |cart| ==> cart[i].quantity >= 0
    requires p.maxQuantity.Some? ==> p.maxQuantity.value >= 0
    ensures HelperRaw(p, cart) == ProductWise.RawDiscount(p, p.discountPercent.value, cart)
  {
    if cart != [] {
      var init, it := cart[..|cart| - 1], cart[|cart| - 1];
      HelperAgreesWithProcessor(p, init);
      HelperLineAgrees(p, it);
    }
  }

  /** The same agreement on one line. */
  lemma HelperLineAgrees(p: ProductWisePayload, it: CartItem)
    requires p.discountPercent.Some? && it.quantity >= 0
    requires p.maxQuantity.Some? ==> p.maxQuantity.value >= 0
    ensures HelperLineDiscount(p, it) == ProductWise.LineDiscount(p, p.discountPercent.value, it)
  {
    var e := HelperEligibleQty(p, it);
    if ProductWise.Qualifies(p, it) {
      assert e == ProductWise.EligibleQty(p, it);
      if e <= 0 {
        assert e == 0;
        assert it.price * e as real == 0.0;
        assert it.price * e as real * (p.discountPercent.value / 100.0) == 0.0;
        assert ProductWise.LineDiscount(p, p.discountPercent.value, it)
               == it.price * e as real * (p.discountPercent.value / 100.0);
        assert HelperLineDiscount(p, it) == 0.0;
      }
    } else if ProductWise.Targets(p, it) {
      assert e <= 0;
    }
  }

  /** The rounded lines add up to the unrounded sum when every recomputed
      line discount is already whole cents, and that sum is whole cents. */
  lemma {:induction false} RoundedLinesSum(p: ProductWisePayload, cart: Cart)
    requires forall i :: 0 <= i < |cart| ==> IsCents(HelperLineDiscount(p, cart[i]))
    ensures SumDiscounts(RoundedLines(p, cart)) == HelperRaw(p, cart)
    ensures IsCents(HelperRaw(p, cart))
  {
    if cart == [] {
      assert IsCents(0.0);
    } else {
      var init, last := cart[..|cart| - 1], cart[|cart| - 1];
      assert forall i :: 0 <= i < |init| ==> init[i] == cart[i];
      RoundedLinesSum(p, init);
      Round2Idempotent(HelperLineDiscount(p, last));
      var u := RoundedLines(p, cart);
      assert u[..|u| - 1] == RoundedLines(p, init);
      CentsAddSub(HelperRaw(p, init), HelperLineDiscount(p, last));
    }
  }

  /** When every recomputed line discount is whole cents, the lines add up
      to exactly the discount the processor computed: the residual makes up
      whatever the recomputation missed. */
  lemma ProductWiseExactWhenCents(cart: Cart, p: ProductWisePayload)
    requires forall i :: 0 <= i < |cart| ==> IsCents(HelperLineDiscount(p, cart[i]))
    ensures var d := ProductWise.Discount(cart, Some(p));
            SumDiscounts(ProductWiseLines(cart, Some(p), d)) == d
  {
    var d := ProductWise.Discount(cart, Some(p));
    var raw := HelperRaw(p, cart);
    RoundedLinesSum(p, cart);
    CentsAddSub(d, raw);
    Round2Idempotent(d - raw);
    var lines := RoundedLines(p, cart);
    var diff := Residual(p, cart, d);
    assert diff == d - raw;
    RoundedLinesCarry(p, cart);
    if cart == [] {
      Round2Idempotent(0.0);
      assert d == 0.0;
    } else if diff != 0.0 {
      SumDiscountsBumpFirst(lines, diff);
    }
  }

  /** Adding to the first line's discount adds to the sum. */
  lemma {:induction false} SumDiscountsBumpFirst(lines: seq<UpdatedItem>, diff: real)
    requires lines != []
    ensures SumDiscounts(lines[0 := lines[0].(totalDiscount := lines[0].totalDiscount + diff)]) == SumDiscounts(lines) + diff
    decreases |lines|
  {
    var bumped := lines[0 := lines[0].(totalDiscount := lines[0].totalDiscount + diff)];
    if |lines| == 1 {
      assert bumped[..0] == [] && lines[..0] == [];
    } else {
      var init := lines[..|lines| - 1];
      SumDiscountsBumpFirst(init, diff);
      assert bumped[..|bumped| - 1] == init[0 := init[0].(totalDiscount := init[0].totalDiscount + diff)];
    }
  }

  /** Where the processor and the distributor agree (a percent set,
      non-negative quantities and cap), the residual is at most one cent
      either way. */
  lemma ResidualAtMostOneCent(cart: Cart, p: ProductWisePayload)
    requires p.productIds.Some? && |p.productIds.value| > 0 && p.discountPercent.Some?
    requires forall i :: 0 <= i < |cart| ==> cart[i].quantity >= 0
    requires p.maxQuantity.Some? ==> p.maxQuantity.value >= 0
    ensures -0.01 <= Residual(p, cart, ProductWise.Discount(cart, Some(p))) <= 0.01
  {
    HelperAgreesWithProcessor(p, cart);
  }

  /** The residual does not restore the exact sum in general: one unit at
      1.25 with 10% off gives a processor discount of 0.13 (0.125 rounded
      half up), a line rounded to 0.13 as well, and a residual of
      0.13 - 0.125 = 0.005, rounded to 0.01 and added on top: the lines
      carry 0.14. */
  lemma ProductWiseResidualOvershoots()
    ensures var cart := [CartItem(7, 1, 1.25)];
            var p := ProductWisePayload(Some([7]), Some(10.0), None, None);
            var d := ProductWise.Discount(cart, Some(p));
            && d == 0.13
            && ProductWiseLines(cart, Some(p), d) == [Carried(cart[0], 0.14)]
            && SumDiscounts(ProductWiseLines(cart, Some(p), d)) == 0.14
  {
    var cart := [CartItem(7, 1, 1.25)];
    var p := ProductWisePayload(Some([7]), Some(10.0), None, None);
    assert cart[..0] == [];
    assert ProductWise.Qualifies(p, cart[0]);
    assert ProductWise.RawDiscount(p, 10.0, cart) == 0.125;
    Round2TieAwayFromZero(12);
    assert Round2(0.125) == 0.13;
    assert HelperRaw(p, cart) == 0.125;
    Round2TieAwayFromZero(0);
    assert Round2(0.13 - 0.125) == 0.01;
    var u := ProductWiseLines(cart, Some(p), 0.13);
    assert u == [Carried(cart[0], 0.14)];
    assert u[..0] == [];
  }

  /** The residual goes to the first line whatever its product: with an
      untargeted line first and one unit at 1.25 of the target product at
      10% off, the processor says 0.13, the recomputed lines sum to 0.125,
      and the untargeted line carries the residual 0.01. */
  lemma NonTargetFirstLineGetsResidual()
    ensures var cart := [CartItem(1, 1, 1.0), CartItem(7, 1, 1.25)];
            var p := ProductWisePayload(Some([7]), Some(10.0), None, None);
            var d := ProductWise.Discount(cart, Some(p));
            && !ProductWise.Targets(p, cart[0])
            && d == 0.13
            && ProductWiseLines(cart, Some(p), d) == [Carried(cart[0], 0.01), Carried(cart[1], 0.13)]
  {
    var cart := [CartItem(1, 1, 1.0), CartItem(7, 1, 1.25)];
    var p := ProductWisePayload(Some([7]), Some(10.0), None, None);
    assert cart[..1] == [cart[0]];
    assert cart[..1][..0] == [];
    assert ProductWise.RawDiscount(p, 10.0, cart) == 0.125;
    Round2TieAwayFromZero(12);
    assert Round2(0.125) == 0.13;
    assert HelperRaw(p, cart) == 0.125;
    Round2TieAwayFromZero(0);
    assert Round2(0.13 - 0.125) == 0.01;
    Round2Idempotent(0.0);
    assert RoundedLines(p, cart) == [Carried(cart[0], 0.0), Carried(cart[1], 0.13)];
  }

  // ---------------------------------------------------------------------
  // BXGY: one line per product, free units credited to their product

  /** A `LinkedHashMap` from product id to output line: its keys in
      insertion order, and its entries. */
  datatype Linked = Linked(keys: seq<int>, entries: map<int, UpdatedItem>)

  /** The keys are distinct and exactly those of the entries, and every
      entry is filed under its own product id. */
  predicate LinkedValid(lm: Linked) {
    && (forall i, j :: 0 <= i < j < |lm.keys| ==> lm.keys[i] != lm.keys[j])
    && (forall k :: k in lm.keys ==> k in lm.entries)
    && (forall k :: k in lm.entries ==> k in lm.keys)
    && (forall k :: k in lm.entries ==> lm.entries[k].productId == k)
  }

  /** `put`: a new key goes last; a key already present keeps its place and
      takes the new value. */
  function Put(lm: Linked, k: int, v: UpdatedItem): (r: Linked)
    ensures LinkedValid(lm) && v.productId == k ==> LinkedValid(r)
    ensures k in lm.entries ==> r.keys == lm.keys
    ensures k !in lm.entries ==> r.keys == lm.keys + [k]
    ensures r.entries.Keys == lm.entries.Keys + {k}
    ensures r.entries[k] == v
    ensures forall j :: j in lm.entries && j != k ==> r.entries[j] == lm.entries[j]
  {
    if k in lm.entries then Linked(lm.keys, lm.entries[k := v])
    else Linked(lm.keys + [k], lm.entries[k := v])
  }

  /** The entries of `m` in the order of `keys`. */
  function ValuesOf(keys: seq<int>, m: map<int, UpdatedItem>): (vs: seq<UpdatedItem>)
    requires forall k :: k in keys ==> k in m
    ensures |vs| == |keys|
    ensures forall i :: 0 <= i < |keys| ==> keys[i] in m && vs[i] == m[keys[i]]
  {
    if keys == [] then []
    else
      var last := keys[|keys| - 1];
      assert last in keys;
      ValuesOf(keys[..|keys| - 1], m) + [m[last]]
  }

  /** `values()`: the entries in insertion order. */
  function Values(lm: Linked): seq<UpdatedItem>
    requires forall k :: k in lm.keys ==> k in lm.entries
  {
    ValuesOf(lm.keys, lm.entries)
  }

  /** The map after the preparing loop: every line put under its product id
      with a zero discount, so a later line of the same product replaces an
      earlier one but keeps its place. */
  function Prepared(cart: Cart): (lm: Linked)
    ensures LinkedValid(lm)
    ensures forall i :: 0 <= i < |cart| ==> cart[i].productId in lm.entries
    ensures forall k :: k in lm.entries ==> lm.entries[k].totalDiscount == 0.0
  {
    if cart == [] then Linked([], map[])
    else
      var last := cart[|cart| - 1];
      Put(Prepared(cart[..|cart| - 1]), last.productId, Carried(last, 0.0))
  }

  /** The product ids of the cart lines, in cart order. */
  function ProductIds(cart: Cart): (ids: seq<int>)
    ensures |ids| == |cart|
    ensures forall i :: 0 <= i < |cart| ==> ids[i] == cart[i].productId
  {
    if cart == [] then []
    else ProductIds(cart[..|cart| - 1]) + [cart[|cart| - 1].productId]
  }

  /** `ids` with every repeat of an earlier id dropped. */
  function FirstOccurrences(ids: seq<int>): seq<int> {
    if ids == [] then []
    else
      var seen := FirstOccurrences(ids[..|ids| - 1]);
      if ids[|ids| - 1] in seen then seen else seen + [ids[|ids| - 1]]
  }

  /** Dropping repeats leaves each id of `ids` exactly once and nothing
      else. */
  lemma {:induction false} FirstOccurrencesDedups(ids: seq<int>)
    ensures forall k :: k in FirstOccurrences(ids) <==> k in ids
    ensures forall i, j :: 0 <= i < j < |FirstOccurrences(ids)| ==> FirstOccurrences(ids)[i] != FirstOccurrences(ids)[j]
  {
    if ids != [] {
      var init := ids[..|ids| - 1];
      FirstOccurrencesDedups(init);
      assert ids == init + [ids[|ids| - 1]];
      var seen := FirstOccurrences(init);
      if ids[|ids| - 1] !in seen {
        var f := seen + [ids[|ids| - 1]];
        assert FirstOccurrences(ids) == f;
        forall i, j | 0 <= i < j < |f| ensures f[i] != f[j] {
          assert f[i] == seen[i] && seen[i] in seen;
          if j < |seen| {
            assert f[j] == seen[j] && seen[i] != seen[j];
          } else {
            assert f[j] == ids[|ids| - 1];
          }
        }
      }
    }
  }

  /** The prepared map holds the cart's products in order of first
      appearance, and under each product the last line of it in the cart,
      with a zero discount. */
  lemma {:induction false} PreparedOrderAndLines(cart: Cart)
    ensures Prepared(cart).keys == FirstOccurrences(ProductIds(cart))
    ensures forall i :: 0 <= i < |cart| && LastOfProduct(cart, i) ==>
              Prepared(cart).entries[cart[i].productId] == Carried(cart[i], 0.0)
  {
    if cart != [] {
      var init := cart[..|cart| - 1];
      var last := cart[|cart| - 1];
      PreparedOrderAndLines(init);
      var before := Prepared(init);
      assert ProductIds(cart)[..|cart| - 1] == ProductIds(init);
      assert last.productId in before.entries <==> last.productId in before.keys;
      forall i | 0 <= i < |cart| && LastOfProduct(cart, i)
        ensures Prepared(cart).entries[cart[i].productId] == Carried(cart[i], 0.0)
      {
        if i < |cart| - 1 {
          assert init[i] == cart[i];
          assert cart[|cart| - 1].productId != cart[i].productId;
          assert LastOfProduct(init, i);
        }
      }
    }
  }

  /** Three lines, product 7 twice: the map keeps 7 first and files the
      later line of 7 under it. */
  lemma PreparedRepeatedProduct()
    ensures Prepared([CartItem(7, 2, 5.0), CartItem(3, 1, 3.0), CartItem(7, 4, 9.0)])
            == Linked([7, 3], map[7 := UpdatedItem(7, 4, 9.0, 0.0), 3 := UpdatedItem(3, 1, 3.0, 0.0)])
  {
    var cart := [CartItem(7, 2, 5.0), CartItem(3, 1, 3.0), CartItem(7, 4, 9.0)];
    assert cart[..2][..1][..0] == [];
    assert cart[..2][..1] == [CartItem(7, 2, 5.0)];
    assert cart[..2] == [CartItem(7, 2, 5.0), CartItem(3, 1, 3.0)];
    assert Prepared(cart[..2][..1]) == Linked([7], map[7 := UpdatedItem(7, 2, 5.0, 0.0)]);
    assert Prepared(cart[..2])
           == Linked([7, 3], map[7 := UpdatedItem(7, 2, 5.0, 0.0), 3 := UpdatedItem(3, 1, 3.0, 0.0)]);
    assert map[7 := UpdatedItem(7, 2, 5.0, 0.0), 3 := UpdatedItem(3, 1, 3.0, 0.0)][7 := UpdatedItem(7, 4, 9.0, 0.0)]
           == map[7 := UpdatedItem(7, 4, 9.0, 0.0), 3 := UpdatedItem(3, 1, 3.0, 0.0)];
  }

  /** The map after the greedy loop: each freed unit's price credited to the
      entry of its product. */
  function Allocated(lm: Linked, lines: seq<CartItem>, remaining: int): (r: Linked)
    ensures r.keys == lm.keys && r.entries.Keys == lm.entries.Keys
    decreases |lines|
  {
    if lines == [] || remaining <= 0 then lm
    else
      var free := Min(lines[0].quantity, remaining);
      Allocated(CreditLine(lm, lines[0], free), lines[1..], remaining - free)
  }

  /** The price of `free` units of `it` added to the entry of its product. */
  function CreditLine(lm: Linked, it: CartItem, free: int): (r: Linked)
    ensures r.keys == lm.keys && r.entries.Keys == lm.entries.Keys
  {
    if it.productId in lm.entries then
      var u := lm.entries[it.productId];
      Put(lm, it.productId, u.(totalDiscount := u.totalDiscount + Worth(it, free)))
    else lm
  }

  /** Crediting keeps the map valid: the keys stay distinct and every entry
      stays filed under its own product id. */
  lemma {:induction false} AllocatedValid(lm: Linked, lines: seq<CartItem>, remaining: int)
    requires LinkedValid(lm)
    ensures LinkedValid(Allocated(lm, lines, remaining))
    decreases |lines|
  {
    if lines != [] && remaining > 0 {
      var free := Min(lines[0].quantity, remaining);
      AllocatedValid(CreditLine(lm, lines[0], free), lines[1..], remaining - free);
    }
  }

  /** What `applyBxGyDiscount` appends: one line per product in order of
      first appearance; when free units are granted and get products are
      named, each carries the price of the units freed on its product. Zero
      lines when the payload cannot be read or the buy count is 0 (the
      division throws); a missing buy count is `Integer.MAX_VALUE`. */
  function BxGyLines(cart: Cart, payload: Option<BxGyPayload>): seq<UpdatedItem> {
    if payload.None? then ZeroLines(cart)
    else
      var bx := payload.value;
      var required := bx.buyRequiredCount.GetOr(IntMax);
      if required == 0 then ZeroLines(cart)
      else
        var free := BxGy.FreeAllowed(BxGy.BuyQty(cart, bx.buyProductIds), required, bx);
        if free > 0 && bx.getProductIds.Some? then
          Values(Allocated(Prepared(cart), BxGy.SortByPriceDesc(BxGy.GetEligible(cart, bx.getProductIds)), free))
        else Values(Prepared(cart))
  }

  /** Every line eligible for free units has an entry. */
  lemma EligibleHaveEntries(cart: Cart, ids: Option<seq<int>>, sorted: seq<CartItem>)
    requires sorted == BxGy.SortByPriceDesc(BxGy.GetEligible(cart, ids))
    ensures forall j :: 0 <= j < |sorted| ==> sorted[j].productId in Prepared(cart).entries
  {
    BxGy.SortKeepsLines(BxGy.GetEligible(cart, ids));
    forall j | 0 <= j < |sorted| ensures sorted[j].productId in Prepared(cart).entries {
      assert sorted[j] in BxGy.GetEligible(cart, ids);
      assert sorted[j] in cart;
    }
  }

  /** `applyBxGyDiscount`: works out the free units as the processor does
      (but clamping instead of returning early), fills the map from the
      cart, then frees units greedily, crediting each product's entry. */
  method ApplyBxGyDiscount(cart: Cart, payload: Option<BxGyPayload>) returns (updated: seq<UpdatedItem>)
    ensures updated == BxGyLines(cart, payload)
  {
    if payload.None? {
      updated := ZeroDiscountLines(cart);
      return;
    }
    var bx := payload.value;
    var totalBuyQty := BxGy.BuyQty(cart, bx.buyProductIds);
    var required := bx.buyRequiredCount.GetOr(IntMax);
    if required == 0 {
      // the division throws; the handler appends every line undiscounted
      updated := ZeroDiscountLines(cart);
      return;
    }
    var timesApplicable := JavaDiv(totalBuyQty, required);
    if timesApplicable < 0 {
      timesApplicable := 0;
    }
    if bx.repetitionLimit.Some? && bx.repetitionLimit.value > 0 {
      timesApplicable := Min(timesApplicable, bx.repetitionLimit.value);
    }
    var totalFreeAllowed := timesApplicable * bx.getQuantity.GetOr(0);
    assert totalFreeAllowed == BxGy.FreeAllowed(totalBuyQty, required, bx);
    var lm := Prepare(cart);
    if totalFreeAllowed > 0 && bx.getProductIds.Some? {
      var eligible := BxGy.SortByPriceDesc(BxGy.GetEligible(cart, bx.getProductIds));
      EligibleHaveEntries(cart, bx.getProductIds, eligible);
      lm := Credit(lm, eligible, totalFreeAllowed);
    }
    updated := Values(lm);
  }

  /** The preparing loop: every line put under its product id with a zero
      discount. */
  method Prepare(cart: Cart) returns (lm: Linked)
    ensures lm == Prepared(cart)
  {
    lm := Linked([], map[]);
    for i := 0 to |cart|
      invariant lm == Prepared(cart[..i])
    {
      assert cart[..i + 1][..i] == cart[..i];
      lm := Put(lm, cart[i].productId, Carried(cart[i], 0.0));
    }
    assert cart[..|cart|] == cart;
  }

  /** The greedy loop: frees up to `totalFreeAllowed` units over `eligible`
      in order, crediting the price of each line's freed units to the entry
      of its product. */
  method Credit(prepared: Linked, eligible: seq<CartItem>, totalFreeAllowed: int) returns (lm: Linked)
    requires forall j :: 0 <= j < |eligible| ==> eligible[j].productId in prepared.entries
    ensures lm == Allocated(prepared, eligible, totalFreeAllowed)
  {
    lm := prepared;
    var remaining := totalFreeAllowed;
    var i := 0;
    while i < |eligible|
      invariant 0 <= i <= |eligible|
      invariant lm.entries.Keys == prepared.entries.Keys
      invariant Allocated(lm, eligible[i..], remaining) == Allocated(prepared, eligible, totalFreeAllowed)
    {
      if remaining <= 0 {
        break;
      }
      var it := eligible[i];
      assert eligible[i..][0] == it && eligible[i..][1..] == eligible[i + 1..];
      var freeQty := Min(it.quantity, remaining);
      var disc := Worth(it, freeQty);
      assert it.productId in prepared.entries;
      var u := lm.entries[it.productId];
      assert CreditLine(lm, it, freeQty) == Put(lm, it.productId, u.(totalDiscount := u.totalDiscount + disc));
      lm := Put(lm, it.productId, u.(totalDiscount := u.totalDiscount + disc));
      remaining := remaining - freeQty;
      i := i + 1;
    }
  }

  /** The sum of `GreedyValueFor` over some product ids. */
  function SumFor(keys: seq<int>, lines: seq<CartItem>, remaining: int): real {
    if keys == [] then 0.0
    else SumFor(keys[..|keys| - 1], lines, remaining) + BxGy.GreedyValueFor(lines, remaining, keys[|keys| - 1])
  }

  /** The sum over `keys` of `v` at key `id` and 0 elsewhere. */
  function Indicator(keys: seq<int>, id: int, v: real): real {
    if keys == [] then 0.0
    else Indicator(keys[..|keys| - 1], id, v) + (if keys[|keys| - 1] == id then v else 0.0)
  }

  lemma {:induction false} IndicatorAbsent(keys: seq<int>, id: int, v: real)
    requires id !in keys
    ensures Indicator(keys, id, v) == 0.0
  {
    if keys != [] {
      IndicatorAbsent(keys[..|keys| - 1], id, v);
    }
  }

  lemma {:induction false} IndicatorOnce(keys: seq<int>, id: int, v: real)
    requires forall i, j :: 0 <= i < j < |keys| ==> keys[i] != keys[j]
    requires id in keys
    ensures Indicator(keys, id, v) == v
  {
    var init := keys[..|keys| - 1];
    if keys[|keys| - 1] == id {
      forall k | k in init ensures k != id {
        var i :| 0 <= i < |init| && init[i] == k;
        assert keys[i] == k;
      }
      IndicatorAbsent(init, id, v);
    } else {
      var i :| 0 <= i < |keys| && keys[i] == id;
      assert init[i] == id;
      IndicatorOnce(init, id, v);
    }
  }

  lemma {:induction false} SumForNothing(keys: seq<int>, lines: seq<CartItem>, remaining: int)
    requires lines == [] || remaining <= 0
    ensures SumFor(keys, lines, remaining) == 0.0
  {
    if keys != [] {
      SumForNothing(keys[..|keys| - 1], lines, remaining);
    }
  }

  /** Summing over the keys commutes with one step of the greedy loop. */
  lemma {:induction false} SumForStep(keys: seq<int>, lines: seq<CartItem>, remaining: int)
    requires lines != [] && remaining > 0
    ensures var free := Min(lines[0].quantity, remaining);
            SumFor(keys, lines, remaining)
              == Indicator(keys, lines[0].productId, Worth(lines[0], free))
                 + SumFor(keys, lines[1..], remaining - free)
  {
    if keys != [] {
      SumForStep(keys[..|keys| - 1], lines, remaining);
    }
  }

  /** Over distinct keys covering every line's product, the per-product
      credits add up to the greedy sum. */
  lemma {:induction false} SumForIsGreedy(keys: seq<int>, lines: seq<CartItem>, remaining: int)
    requires forall i, j :: 0 <= i < j < |keys| ==> keys[i] != keys[j]
    requires forall j :: 0 <= j < |lines| ==> lines[j].productId in keys
    ensures SumFor(keys, lines, remaining) == BxGy.GreedyValue(lines, remaining)
  {
    if lines == [] || remaining <= 0 {
      SumForNothing(keys, lines, remaining);
    } else {
      var free := Min(lines[0].quantity, remaining);
      SumForStep(keys, lines, remaining);
      IndicatorOnce(keys, lines[0].productId, Worth(lines[0], free));
      assert forall j :: 0 <= j < |lines[1..]| ==> lines[1..][j] == lines[j + 1];
      SumForIsGreedy(keys, lines[1..], remaining - free);
    }
  }

  /** Each entry gains exactly the credits of its product. */
  lemma {:induction false} AllocatedCredits(lm: Linked, lines: seq<CartItem>, remaining: int)
    requires forall j :: 0 <= j < |lines| ==> lines[j].productId in lm.entries
    ensures forall k :: k in lm.entries ==>
              Allocated(lm, lines, remaining).entries[k]
                == lm.entries[k].(totalDiscount := lm.entries[k].totalDiscount + BxGy.GreedyValueFor(lines, remaining, k))
    decreases |lines|
  {
    if lines != [] && remaining > 0 {
      var it := lines[0];
      var free := Min(it.quantity, remaining);
      var u := lm.entries[it.productId];
      var next := CreditLine(lm, it, free);
      assert forall j :: 0 <= j < |lines[1..]| ==> lines[1..][j] == lines[j + 1];
      AllocatedCredits(next, lines[1..], remaining - free);
      var after := Allocated(lm, lines, remaining);
      forall k | k in lm.entries
        ensures after.entries[k]
                == lm.entries[k].(totalDiscount := lm.entries[k].totalDiscount + BxGy.GreedyValueFor(lines, remaining, k))
      {
        var g := BxGy.GreedyValueFor(lines[1..], remaining - free, k);
        assert after.entries[k] == next.entries[k].(totalDiscount := next.entries[k].totalDiscount + g);
        if k == it.productId {
          assert BxGy.GreedyValueFor(lines, remaining, k) == Worth(it, free) + g;
        } else {
          assert BxGy.GreedyValueFor(lines, remaining, k) == 0.0 + g;
          assert next.entries[k] == lm.entries[k];
        }
      }
    }
  }

  /** Raising each entry by its credits raises the sum of the values by the
      sum of the credits. */
  lemma {:induction false} ValuesShift(keys: seq<int>, m: map<int, UpdatedItem>, m': map<int, UpdatedItem>,
                                       lines: seq<CartItem>, remaining: int)
    requires forall k :: k in keys ==> k in m && k in m'
    requires forall k :: k in keys ==>
               m'[k].totalDiscount == m[k].totalDiscount + BxGy.GreedyValueFor(lines, remaining, k)
    ensures SumDiscounts(ValuesOf(keys, m')) == SumDiscounts(ValuesOf(keys, m)) + SumFor(keys, lines, remaining)
  {
    if keys != [] {
      ValuesShift(keys[..|keys| - 1], m, m', lines, remaining);
    }
  }

  lemma {:induction false} ValuesOfZero(keys: seq<int>, m: map<int, UpdatedItem>)
    requires forall k :: k in keys ==> k in m && m[k].totalDiscount == 0.0
    ensures SumDiscounts(ValuesOf(keys, m)) == 0.0
  {
    if keys != [] {
      ValuesOfZero(keys[..|keys| - 1], m);
    }
  }

  /** No rounding drift and nothing lost to merged lines: the BXGY lines add
      up to the greedy sum when units are freed, and to 0 otherwise. */
  lemma BxGyLinesTotal(cart: Cart, bx: BxGyPayload)
    requires bx.buyRequiredCount.GetOr(IntMax) != 0
    ensures var free := BxGy.FreeAllowed(BxGy.BuyQty(cart, bx.buyProductIds), bx.buyRequiredCount.GetOr(IntMax), bx);
            SumDiscounts(BxGyLines(cart, Some(bx)))
              == if free > 0 && bx.getProductIds.Some?
                 then BxGy.GreedyValue(BxGy.SortByPriceDesc(BxGy.GetEligible(cart, bx.getProductIds)), free)
                 else 0.0
  {
    var free := BxGy.FreeAllowed(BxGy.BuyQty(cart, bx.buyProductIds), bx.buyRequiredCount.GetOr(IntMax), bx);
    var prepared := Prepared(cart);
    ValuesOfZero(prepared.keys, prepared.entries);
    if free > 0 && bx.getProductIds.Some? {
      var sorted := BxGy.SortByPriceDesc(BxGy.GetEligible(cart, bx.getProductIds));
      EligibleHaveEntries(cart, bx.getProductIds, sorted);
      AllocatedCredits(prepared, sorted, free);
      var after := Allocated(prepared, sorted, free);
      ValuesShift(prepared.keys, prepared.entries, after.entries, sorted, free);
      SumForIsGreedy(prepared.keys, sorted, free);
    }
  }

  /** For a coupon that applies, the lines add up, once rounded to cents, to
      exactly the discount the BXGY processor computed. */
  lemma BxGyLinesMatchProcessor(cart: Cart, payload: Option<BxGyPayload>)
    requires BxGy.IsApplicable(cart, payload)
    ensures Round2(SumDiscounts(BxGyLines(cart, payload))) == BxGy.Discount(cart, payload)
  {
    var bx := payload.value;
    BxGyLinesTotal(cart, bx);
    assert IsCents(0.0);
    Round2Idempotent(0.0);
    if bx.getProductIds.None? {
      NothingEligible(cart);
    }
  }

  /** Without a get list no line is eligible. */
  lemma {:induction false} NothingEligible(cart: Cart)
    ensures BxGy.GetEligible(cart, None) == []
  {
    if cart != [] {
      NothingEligible(cart[1..]);
    }
  }

  /** One line per product: the lines' product ids are the cart's product
      ids in order of first appearance, each once, so every cart line's
      product has a line and no other product has one; a product's line
      carries the quantity and price of the last cart line of that product. */
  lemma {:induction false} BxGyLinesOnePerProduct(cart: Cart, bx: BxGyPayload)
    requires bx.buyRequiredCount.GetOr(IntMax) != 0
    ensures OneLinePerProduct(cart, BxGyLines(cart, Some(bx)))
  {
    var prepared := Prepared(cart);
    PreparedOrderAndLines(cart);
    var free := BxGy.FreeAllowed(BxGy.BuyQty(cart, bx.buyProductIds), bx.buyRequiredCount.GetOr(IntMax), bx);
    if free > 0 && bx.getProductIds.Some? {
      var sorted := BxGy.SortByPriceDesc(BxGy.GetEligible(cart, bx.getProductIds));
      EligibleHaveEntries(cart, bx.getProductIds, sorted);
      AllocatedKeepsLines(prepared, sorted, free);
      ValuesFromCart(cart, prepared, Allocated(prepared, sorted, free));
      assert BxGyLines(cart, Some(bx)) == Values(Allocated(prepared, sorted, free));
    } else {
      ValuesFromCart(cart, prepared, prepared);
      assert BxGyLines(cart, Some(bx)) == Values(prepared);
    }
  }

  /** Crediting changes only the discounts: the map stays valid, with the
      same keys, and each entry keeps its quantity and price. */
  lemma {:induction false} AllocatedKeepsLines(lm: Linked, lines: seq<CartItem>, remaining: int)
    requires LinkedValid(lm)
    requires forall j :: 0 <= j < |lines| ==> lines[j].productId in lm.entries
    ensures var r := Allocated(lm, lines, remaining);
            && LinkedValid(r) && r.keys == lm.keys && r.entries.Keys == lm.entries.Keys
            && (forall k :: k in lm.entries ==> r.entries[k].quantity == lm.entries[k].quantity && r.entries[k].price == lm.entries[k].price)
  {
    AllocatedValid(lm, lines, remaining);
    AllocatedCredits(lm, lines, remaining);
  }

  /** The lines `u` hold one line per product of the cart: their product
      ids are the cart's in order of first appearance, each once, so every
      cart line's product has a line and no other product has one; and each
      line carries the quantity and price of the last cart line of its
      product. */
  predicate OneLinePerProduct(cart: Cart, u: seq<UpdatedItem>) {
    var ids := FirstOccurrences(ProductIds(cart));
    && |u| == |ids|
    && (forall j :: 0 <= j < |u| ==> u[j].productId == ids[j])
    && (forall i, j :: 0 <= i < j < |u| ==> u[i].productId != u[j].productId)
    && (forall i :: 0 <= i < |cart| ==> cart[i].productId in LineIds(u))
    && (forall i, j :: 0 <= i < |cart| && 0 <= j < |u| && u[j].productId == cart[i].productId && LastOfProduct(cart, i)
          ==> u[j].quantity == cart[i].quantity && u[j].price == cart[i].price)
  }

  /** No later cart line has the product of line `i`. */
  predicate LastOfProduct(cart: Cart, i: int)
    requires 0 <= i < |cart|
  {
    forall m :: i < m < |cart| ==> cart[m].productId != cart[i].productId
  }

  /** The values of a map with the prepared keys, whose entries keep the
      quantity and price of the prepared ones, are one line per product in
      order of first appearance, carrying the last line of each product. */
  lemma {:induction false} ValuesFromCart(cart: Cart, prepared: Linked, lm: Linked)
    requires LinkedValid(lm)
    requires forall i :: 0 <= i < |cart| ==> cart[i].productId in lm.entries
    requires lm.keys == prepared.keys && lm.entries.Keys == prepared.entries.Keys
    requires prepared.keys == FirstOccurrences(ProductIds(cart))
    requires forall i :: 0 <= i < |cart| && LastOfProduct(cart, i) ==> prepared.entries[cart[i].productId] == Carried(cart[i], 0.0)
    requires forall k :: k in prepared.entries ==>
               lm.entries[k].quantity == prepared.entries[k].quantity && lm.entries[k].price == prepared.entries[k].price
    ensures OneLinePerProduct(cart, Values(lm))
  {
    var u := Values(lm);
    ValuesFollowKeys(lm);
    ValuesDistinct(lm);
    ValuesCover(lm, cart, u);
    forall i, j | 0 <= i < |cart| && 0 <= j < |u|
      ensures u[j].productId == cart[i].productId && LastOfProduct(cart, i) ==>
                u[j].quantity == cart[i].quantity && u[j].price == cart[i].price
    {
      var k := cart[i].productId;
      if u[j].productId == k && LastOfProduct(cart, i) {
        assert u[j] == lm.entries[k];
        assert prepared.entries[k] == Carried(cart[i], 0.0);
      }
    }
  }

  /** In a valid map the `j`-th value is the line of the `j`-th key. */
  lemma ValuesFollowKeys(lm: Linked)
    requires LinkedValid(lm)
    ensures |Values(lm)| == |lm.keys|
    ensures forall j :: 0 <= j < |lm.keys| ==> Values(lm)[j].productId == lm.keys[j]
  {
    forall j | 0 <= j < |lm.keys| ensures Values(lm)[j].productId == lm.keys[j] {
      var k := lm.keys[j];
      assert k in lm.entries;
      assert Values(lm)[j] == lm.entries[k];
    }
  }

  /** The values of a valid map hold one line per key. */
  lemma ValuesDistinct(lm: Linked)
    requires LinkedValid(lm)
    ensures forall i, j :: 0 <= i < j < |Values(lm)| ==> Values(lm)[i].productId != Values(lm)[j].productId
  {
    ValuesFollowKeys(lm);
  }

  /** The values `u` of a valid map cover every cart line whose product
      has an entry. */
  lemma ValuesCover(lm: Linked, cart: Cart, u: seq<UpdatedItem>)
    requires LinkedValid(lm)
    requires forall i :: 0 <= i < |cart| ==> cart[i].productId in lm.entries
    requires u == Values(lm)
    ensures forall i :: 0 <= i < |cart| ==> cart[i].productId in LineIds(u)
  {
    ValuesFollowKeys(lm);
    forall i | 0 <= i < |cart| ensures cart[i].productId in LineIds(u) {
      var k := cart[i].productId;
      assert k in lm.keys;
      var j := IndexOf(lm.keys, k);
      assert u[j] in u && u[j].productId == k;
    }
  }

  /** The position of `k` in `keys`. */
  function IndexOf(keys: seq<int>, k: int): (j: nat)
    requires k in keys
    ensures j < |keys| && keys[j] == k
  {
    if keys[0] == k then 0 else 1 + IndexOf(keys[1..], k)
  }

  /** Six units at 10.00, buy 2 get 1 of the same product, at most twice:
      the single output line carries 20.00. */
  lemma BxGyLinesBuyTwoGetOneTwice()
    ensures BxGyLines([CartItem(1, 6, 10.0)], Some(BxGyPayload(Some([1]), Some(2), Some([1]), Some(1), Some(2))))
            == [UpdatedItem(1, 6, 10.0, 20.0)]
  {
    var cart := [CartItem(1, 6, 10.0)];
    assert cart[..0] == [];
    assert BxGy.BuyQty(cart, Some([1])) == 6;
    assert BxGy.GetEligible(cart, Some([1])) == cart;
    assert BxGy.SortByPriceDesc(cart) == cart;
    assert Prepared(cart) == Linked([1], map[1 := UpdatedItem(1, 6, 10.0, 0.0)]);
    assert cart[1..] == [];
  }
}
