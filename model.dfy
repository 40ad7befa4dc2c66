/** The records the engine works on: cart lines, coupons and their decoded
    payloads, and the values it returns. */
module Model {
  import opened Wrappers

  /** A cart line (`CartItemDto`): product id, quantity (a Java `int`,
      which the source does not check for sign) and unit price. */
  datatype CartItem = CartItem(productId: int, quantity: int, price: real)

  type Cart = seq<CartItem>

  /** `CartWisePayload`: every field may be absent from the JSON. */
  datatype CartWisePayload = CartWisePayload(
    threshold: Option<real>,
    discountPercent: Option<real>,
    maxDiscount: Option<real>)

  /** `ProductWisePayload`. */
  datatype ProductWisePayload = ProductWisePayload(
    productIds: Option<seq<int>>,
    discountPercent: Option<real>,
    minQuantity: Option<int>,
    maxQuantity: Option<int>)

  /** `BxGyPayload`: buy `buyRequiredCount` units among `buyProductIds`,
      get `getQuantity` units among `getProductIds` free, at most
      `repetitionLimit` times when that is positive. */
  datatype BxGyPayload = BxGyPayload(
    buyProductIds: Option<seq<int>>,
    buyRequiredCount: Option<int>,
    getProductIds: Option<seq<int>>,
    getQuantity: Option<int>,
    repetitionLimit: Option<int>)

  /** A stored coupon. Its JSON payload is given already decoded against each
      of the three schemas; `None` means that schema could not read it.
      `expiresAt` is an instant as an integer; `enabled` is a nullable
      `Boolean`. */
  datatype Coupon = Coupon(
    id: int,
    kind: string,
    enabled: Option<bool>,
    expiresAt: Option<int>,
    asCartWise: Option<CartWisePayload>,
    asProductWise: Option<ProductWisePayload>,
    asBxGy: Option<BxGyPayload>)

  /** An output line (`UpdatedItemDto`). */
  datatype UpdatedItem = UpdatedItem(productId: int, quantity: int, price: real, totalDiscount: real)

  /** The applied cart (`UpdatedCartDto`). */
  datatype UpdatedCart = UpdatedCart(items: seq<UpdatedItem>, totalPrice: real, totalDiscount: real, finalPrice: real)

  /** One entry of the applicable-coupons listing (`ApplicableCouponDto`). */
  datatype ApplicableCoupon = ApplicableCoupon(couponId: int, kind: string, discount: real)

  /** `price * quantity` of one line. */
  function LineTotal(it: CartItem): real {
    it.price * it.quantity as real
  }

  /** The price of `units` units of a line. */
  function Worth(it: CartItem, units: int): real {
    it.price * units as real
  }

  /** The cart total: the sum of `price * quantity` over the lines, folded
      from the left as the source's stream `reduce` does. */
  function CartTotal(cart: Cart): real {
    if cart == [] then 0.0 else CartTotal(cart[..|cart| - 1]) + LineTotal(cart[|cart| - 1])
  }

  /** The output line for `it` carrying discount `d`, all other fields copied. */
  function Carried(it: CartItem, d: real): UpdatedItem {
    UpdatedItem(it.productId, it.quantity, it.price, d)
  }

  /** The sum of the discounts of some output lines. */
  function SumDiscounts(lines: seq<UpdatedItem>): real {
    if lines == [] then 0.0 else SumDiscounts(lines[..|lines| - 1]) + lines[|lines| - 1].totalDiscount
  }

  /** The product ids that have an output line. */
  function LineIds(lines: seq<UpdatedItem>): set<int> {
    set l | l in lines :: l.productId
  }

  predicate NonNegativeLines(cart: Cart) {
    forall i :: 0 <= i < |cart| ==> cart[i].quantity >= 0 && cart[i].price >= 0.0
  }

  /** The total splits over a concatenation. */
  lemma {:induction false} CartTotalAppend(a: Cart, b: Cart)
    ensures CartTotal(a + b) == CartTotal(a) + CartTotal(b)
  {
    if b != [] {
      assert (a + b)[..|a + b| - 1] == a + b[..|b| - 1];
      CartTotalAppend(a, b[..|b| - 1]);
    } else {
      assert a + b == a;
    }
  }

  /** The total is the first line's plus the rest's. */
  lemma CartTotalCons(cart: Cart)
    requires cart != []
    ensures CartTotal(cart) == LineTotal(cart[0]) + CartTotal(cart[1..])
  {
    CartTotalAppend([cart[0]], cart[1..]);
    assert [cart[0]] + cart[1..] == cart;
    assert [cart[0]][..0] == [];
  }

  /** The total of lines with non-negative prices and quantities is
      non-negative. */
  lemma {:induction false} CartTotalNonNegative(cart: Cart)
    requires NonNegativeLines(cart)
    ensures CartTotal(cart) >= 0.0
  {
    if cart != [] {
      CartTotalNonNegative(cart[..|cart| - 1]);
      var it := cart[|cart| - 1];
      assert it.price * it.quantity as real >= 0.0;
    }
  }

  /** Appending a line adds its discount. */
  lemma SumDiscountsSnoc(lines: seq<UpdatedItem>, x: UpdatedItem)
    ensures SumDiscounts(lines + [x]) == SumDiscounts(lines) + x.totalDiscount
  {
    assert (lines + [x])[..|lines|] == lines;
  }

  /** The discounts split over a concatenation. */
  lemma {:induction false} SumDiscountsAppend(a: seq<UpdatedItem>, b: seq<UpdatedItem>)
    ensures SumDiscounts(a + b) == SumDiscounts(a) + SumDiscounts(b)
  {
    if b != [] {
      assert (a + b)[..|a + b| - 1] == a + b[..|b| - 1];
      SumDiscountsAppend(a, b[..|b| - 1]);
    } else {
      assert a + b == a;
    }
  }
}
