/** `CouponService`: lists the coupons that apply to a cart, and applies one
    coupon to a cart. The stored coupons (`findAll`) and the current instant
    (`Instant.now()`) are parameters; the processors come from a
    `ProcessorRegistry`. */
module CouponService {
  import opened Wrappers
  import opened Arith
  import opened Model
  import opened Processors
  import opened Registry
  import opened Distribution
  import CartWise
  import ProductWise
  import BxGy

  // ---------------------------------------------------------------------
  // Looking coupons up

  /** `getById`: the first stored coupon with the id, or none (the
      NOT_FOUND error). */
  function FindById(stored: seq<Coupon>, id: int): (r: Option<Coupon>)
    ensures r.Some? ==> r.value in stored && r.value.id == id
    ensures r.None? <==> forall c :: c in stored ==> c.id != id
  {
    if stored == [] then None
    else if stored[0].id == id then Some(stored[0])
    else FindById(stored[1..], id)
  }

  /** Coupon ids are a primary key: no two stored coupons share one. */
  predicate DistinctIds(stored: seq<Coupon>) {
    forall i, j :: 0 <= i < j < |stored| ==> stored[i].id != stored[j].id
  }

  /** With distinct ids, looking a stored coupon up by its id finds it. */
  lemma {:induction false} FindByIdFinds(stored: seq<Coupon>, c: Coupon)
    requires DistinctIds(stored) && c in stored
    ensures FindById(stored, c.id) == Some(c)
  {
    if stored[0] != c {
      var k :| 0 < k < |stored| && stored[k] == c;
      assert stored[0].id != stored[k].id;
      var rest := stored[1..];
      assert rest[k - 1] == c;
      assert DistinctIds(rest) by {
        forall i, j | 0 <= i < j < |rest| ensures rest[i].id != rest[j].id {
          assert rest[i] == stored[i + 1] && rest[j] == stored[j + 1];
        }
      }
      FindByIdFinds(rest, c);
    }
  }

  // ---------------------------------------------------------------------
  // Activity: the two entry points test expiry differently

  /** The listing's filter: enabled, and no expiry or one strictly after
      `now`. */
  predicate OnOffer(c: Coupon, now: int) {
    c.enabled == Some(true) && (c.expiresAt.None? || c.expiresAt.value > now)
  }

  /** The applying check: enabled, and not expired strictly before `now`. */
  predicate Active(c: Coupon, now: int) {
    c.enabled == Some(true) && !(c.expiresAt.Some? && c.expiresAt.value < now)
  }

  /** A coupon on offer is active; an active coupon is off offer only in the
      instant it expires. */
  lemma OnOfferAndActive(c: Coupon, now: int)
    ensures OnOffer(c, now) ==> Active(c, now)
    ensures Active(c, now) && !OnOffer(c, now) <==> c.enabled == Some(true) && c.expiresAt == Some(now)
  {
  }

  /** The stored coupons on offer at `now`, in stored order. */
  function Current(stored: seq<Coupon>, now: int): (r: seq<Coupon>)
    ensures forall c :: c in r <==> c in stored && OnOffer(c, now)
  {
    if stored == [] then []
    else
      var init, c := stored[..|stored| - 1], stored[|stored| - 1];
      assert forall x :: x in stored <==> x in init || x == c;
      Current(init, now) + (if OnOffer(c, now) then [c] else [])
  }

  // ---------------------------------------------------------------------
  // findApplicableCoupons

  /** The entry for one coupon: none unless the registry has a processor for
      its type that finds it applicable and a positive discount. */
  function Offer(c: Coupon, registry: map<string, CouponProcessor>, cart: Cart): seq<ApplicableCoupon> {
    if c.kind in registry && Applicable(registry[c.kind], cart, c) && Discount(registry[c.kind], cart, c) > 0.0
    then [ApplicableCoupon(c.id, c.kind, Discount(registry[c.kind], cart, c))]
    else []
  }

  /** The entries of some coupons, in their order. */
  function Offers(coupons: seq<Coupon>, registry: map<string, CouponProcessor>, cart: Cart): seq<ApplicableCoupon> {
    if coupons == [] then []
    else Offers(coupons[..|coupons| - 1], registry, cart) + Offer(coupons[|coupons| - 1], registry, cart)
  }

  /** `findApplicableCoupons`: filters the stored coupons to those on offer,
      then asks each one's processor whether it applies and what it saves. */
  method FindApplicableCoupons(stored: seq<Coupon>, registry: ProcessorRegistry, cart: Cart, now: int)
    returns (result: seq<ApplicableCoupon>)
    ensures result == Offers(Current(stored, now), registry.registry, cart)
  {
    var all := Current(stored, now);
    result := [];
    for i := 0 to |all|
      invariant result == Offers(all[..i], registry.registry, cart)
    {
      var c := all[i];
      assert all[..i + 1][..i] == all[..i];
      var p := registry.GetProcessor(c.kind);
      if p.None? {
        continue;
      }
      var applicable := IsApplicable(p.value, cart, c);
      if applicable {
        var discount := CalculateDiscount(p.value, cart, c);
        if discount > 0.0 {
          result := result + [ApplicableCoupon(c.id, c.kind, discount)];
        }
      }
    }
    assert all[..|all|] == all;
  }

  /** An entry is listed exactly when it is the entry of one of the coupons:
      of a type the registry supports, applicable, with a positive discount
      in whole cents. */
  lemma {:induction false} OffersExactly(coupons: seq<Coupon>, registry: map<string, CouponProcessor>, cart: Cart, e: ApplicableCoupon)
    ensures e in Offers(coupons, registry, cart) <==>
              exists c :: c in coupons && c.kind in registry && Applicable(registry[c.kind], cart, c)
                          && e == ApplicableCoupon(c.id, c.kind, Discount(registry[c.kind], cart, c))
                          && e.discount > 0.0
    ensures e in Offers(coupons, registry, cart) ==> IsCents(e.discount)
  {
    if coupons != [] {
      var init, last := coupons[..|coupons| - 1], coupons[|coupons| - 1];
      OffersExactly(init, registry, cart, e);
      assert forall x :: x in coupons <==> x in init || x == last;
    }
  }

  /** Every listed coupon can be applied to the same cart at the same
      instant: the listing's expiry test is the stricter one. */
  lemma ListedCouponApplies(stored: seq<Coupon>, registry: map<string, CouponProcessor>, cart: Cart, now: int, e: ApplicableCoupon)
    requires DistinctIds(stored)
    requires e in Offers(Current(stored, now), registry, cart)
    ensures Outcome(stored, registry, e.couponId, cart, now).Success?
  {
    OffersExactly(Current(stored, now), registry, cart, e);
    var c :| c in Current(stored, now) && c.kind in registry && Applicable(registry[c.kind], cart, c)
             && e == ApplicableCoupon(c.id, c.kind, Discount(registry[c.kind], cart, c));
    FindByIdFinds(stored, c);
    OnOfferAndActive(c, now);
  }

  // ---------------------------------------------------------------------
  // applyCoupon

  /** Why a coupon could not be applied: NOT_FOUND, "Coupon not active"
      (UNPROCESSABLE_ENTITY), "Unsupported coupon type" (BAD_REQUEST), "Coupon
      not applicable to cart" (UNPROCESSABLE_ENTITY). */
  datatype ApplyError = NotFound | NotActive | UnsupportedType | NotApplicable

  /** The lines the distributor for the coupon's type appends; the fallback
      carries every line undiscounted. */
  function Distribute(c: Coupon, cart: Cart, discount: real): seq<UpdatedItem> {
    if c.kind == CartWise.Type then CartWiseLines(cart, discount, CartTotal(cart))
    else if c.kind == ProductWise.Type then ProductWiseLines(cart, c.asProductWise, discount)
    else if c.kind == BxGy.Type then BxGyLines(cart, c.asBxGy)
    else ZeroLines(cart)
  }

  /** The applied cart: the lines, the cart total to cents, the lines'
      discounts summed and then rounded to cents, and the unrounded total
      less that sum, to cents. Every amount is whole cents. */
  function Priced(cart: Cart, items: seq<UpdatedItem>): (r: UpdatedCart)
    ensures r.items == items
    ensures IsCents(r.totalPrice) && IsCents(r.totalDiscount) && IsCents(r.finalPrice)
  {
    var total := CartTotal(cart);
    var aggregated := Round2(SumDiscounts(items));
    UpdatedCart(items, Round2(total), aggregated, Round2(total - aggregated))
  }

  /** The final price is the cart total less the discount to within half a
      cent, and exactly when the cart total is whole cents. */
  lemma PricedFinal(cart: Cart, items: seq<UpdatedItem>)
    ensures var r := Priced(cart, items);
            CartTotal(cart) - r.totalDiscount - 0.005 <= r.finalPrice <= CartTotal(cart) - r.totalDiscount + 0.005
    ensures var r := Priced(cart, items);
            IsCents(CartTotal(cart)) ==> r.totalPrice == CartTotal(cart) && r.finalPrice == r.totalPrice - r.totalDiscount
  {
    var total := CartTotal(cart);
    var aggregated := Round2(SumDiscounts(items));
    if IsCents(total) {
      Round2Idempotent(total);
      CentsAddSub(total, aggregated);
      Round2Idempotent(total - aggregated);
    }
  }

  /** What `applyCoupon` returns or throws, checking in order: the coupon
      exists, is active, has a registered processor, and that processor
      finds it applicable. */
  function Outcome(stored: seq<Coupon>, registry: map<string, CouponProcessor>, couponId: int, cart: Cart, now: int)
    : Result<UpdatedCart, ApplyError>
  {
    match FindById(stored, couponId)
    case None => Failure(NotFound)
    case Some(c) =>
      if !Active(c, now) then Failure(NotActive)
      else if c.kind !in registry then Failure(UnsupportedType)
      else if !Applicable(registry[c.kind], cart, c) then Failure(NotApplicable)
      else Success(Priced(cart, Distribute(c, cart, Discount(registry[c.kind], cart, c))))
  }

  /** `applyCoupon`. */
  method ApplyCoupon(stored: seq<Coupon>, registry: ProcessorRegistry, couponId: int, cart: Cart, now: int)
    returns (r: Result<UpdatedCart, ApplyError>)
    ensures r == Outcome(stored, registry.registry, couponId, cart, now)
  {
    var found := FindById(stored, couponId);
    if found.None? {
      return Failure(NotFound);
    }
    var coupon := found.value;
    if coupon.enabled != Some(true) || (coupon.expiresAt.Some? && coupon.expiresAt.value < now) {
      return Failure(NotActive);
    }
    var p := registry.GetProcessor(coupon.kind);
    if p.None? {
      return Failure(UnsupportedType);
    }
    var applicable := IsApplicable(p.value, cart, coupon);
    if !applicable {
      return Failure(NotApplicable);
    }
    var applied := Apply(p.value, coupon, cart);
    r := Success(applied);
  }

  /** What `applyCoupon` does once the checks pass: asks the processor for
      the total discount, distributes it over the lines by the coupon's
      type, and prices the cart. */
  method Apply(p: CouponProcessor, coupon: Coupon, cart: Cart) returns (applied: UpdatedCart)
    ensures applied == Priced(cart, Distribute(coupon, cart, Discount(p, cart, coupon)))
  {
    var totalDiscount := ApplyAndReturnTotalDiscount(p, cart, coupon);
    var totalPrice := CartTotal(cart);
    var updated := DistributeLines(coupon, cart, totalDiscount, totalPrice);
    assert updated == Distribute(coupon, cart, Discount(p, cart, coupon));
    var aggregated := Round2(SumDiscounts(updated));
    var finalPrice := Round2(totalPrice - aggregated);
    applied := UpdatedCart(updated, Round2(totalPrice), aggregated, finalPrice);
    assert applied == Priced(cart, updated);
  }

  /** The coupon-type handling of `applyCoupon`: the distributor for the
      coupon's type, or the fallback. */
  method DistributeLines(coupon: Coupon, cart: Cart, totalDiscount: real, totalPrice: real)
    returns (updated: seq<UpdatedItem>)
    requires totalPrice == CartTotal(cart)
    ensures updated == Distribute(coupon, cart, totalDiscount)
  {
    if coupon.kind == CartWise.Type {
      updated := ApplyCartWiseDiscount(cart, totalDiscount, totalPrice);
    } else if coupon.kind == ProductWise.Type {
      updated := ApplyProductWiseDiscount(cart, coupon.asProductWise, totalDiscount);
    } else if coupon.kind == BxGy.Type {
      updated := ApplyBxGyDiscount(cart, coupon.asBxGy);
    } else {
      updated := ZeroDiscountLines(cart);
    }
  }

  /** NOT_FOUND exactly when no stored coupon has the id. */
  lemma NotFoundIffMissing(stored: seq<Coupon>, registry: map<string, CouponProcessor>, couponId: int, cart: Cart, now: int)
    ensures Outcome(stored, registry, couponId, cart, now) == Failure(NotFound)
            <==> forall c :: c in stored ==> c.id != couponId
  {
  }

  /** A coupon is applied only when it exists, is active, its type is
      registered and its processor finds it applicable; with a registry
      whose tags name their processors, its type is then one of the three
      and the fallback distribution is never used. */
  lemma AppliedOnlyWhenChecked(stored: seq<Coupon>, registry: map<string, CouponProcessor>, couponId: int, cart: Cart, now: int)
    requires Outcome(stored, registry, couponId, cart, now).Success?
    ensures FindById(stored, couponId).Some?
    ensures var c := FindById(stored, couponId).value;
            && Active(c, now) && c.kind in registry && Applicable(registry[c.kind], cart, c)
            && (Consistent(registry) ==> c.kind == CartWise.Type || c.kind == ProductWise.Type || c.kind == BxGy.Type)
  {
    var c := FindById(stored, couponId).value;
    if Consistent(registry) {
      OfTypeInverse(c.kind);
      assert Type(registry[c.kind]) == c.kind;
    }
  }

  /** In a consistent registry, the processor filed under a type is the one
      reporting it. */
  lemma FiledUnderOwnType(registry: map<string, CouponProcessor>, t: string)
    requires Consistent(registry) && t in registry
    ensures OfType(t) == Some(registry[t])
  {
    assert Type(registry[t]) == t;
  }

  /** Except for BXGY, the applied lines copy the cart's lines one for one. */
  lemma AppliedLinesCarryCart(stored: seq<Coupon>, registry: map<string, CouponProcessor>, couponId: int, cart: Cart, now: int)
    requires Outcome(stored, registry, couponId, cart, now).Success?
    requires FindById(stored, couponId).value.kind != BxGy.Type
    ensures Carries(cart, Outcome(stored, registry, couponId, cart, now).value.items)
  {
    var c := FindById(stored, couponId).value;
    var d := Discount(registry[c.kind], cart, c);
    if c.kind == CartWise.Type {
      CartWiseLinesCarry(cart, d, CartTotal(cart));
    } else if c.kind == ProductWise.Type {
      if c.asProductWise.Some? {
        ProductWiseLinesCarry(cart, c.asProductWise.value, d);
      } else {
        ZeroLinesCarry(cart);
      }
    } else {
      ZeroLinesCarry(cart);
    }
  }

  /** For BXGY, in a consistent registry, the applied lines hold one line per
      product: the cart's product ids in order of first appearance, each
      once, each line carrying the quantity and price of the last cart line
      of its product. */
  lemma AppliedBxGyOneLinePerProduct(stored: seq<Coupon>, registry: map<string, CouponProcessor>, couponId: int, cart: Cart, now: int)
    requires Consistent(registry)
    requires Outcome(stored, registry, couponId, cart, now).Success?
    requires FindById(stored, couponId).value.kind == BxGy.Type
    ensures OneLinePerProduct(cart, Outcome(stored, registry, couponId, cart, now).value.items)
  {
    var c := FindById(stored, couponId).value;
    FiledUnderOwnType(registry, c.kind);
    assert registry[c.kind] == BxGyProcessor;
    BxGyLinesOnePerProduct(cart, c.asBxGy.value);
  }

  /** For CART_WISE on a non-empty cart with a non-zero total, and for BXGY,
      the applied cart's discount is exactly the processor's discount: the
      distribution loses nothing to rounding. */
  lemma AppliedDiscountIsProcessors(stored: seq<Coupon>, registry: map<string, CouponProcessor>, couponId: int, cart: Cart, now: int)
    requires Consistent(registry)
    requires Outcome(stored, registry, couponId, cart, now).Success?
    requires var c := FindById(stored, couponId).value;
             c.kind == BxGy.Type || (c.kind == CartWise.Type && cart != [] && CartTotal(cart) != 0.0)
    ensures var c := FindById(stored, couponId).value;
            Outcome(stored, registry, couponId, cart, now).value.totalDiscount == Discount(registry[c.kind], cart, c)
  {
    var c := FindById(stored, couponId).value;
    var d := Discount(registry[c.kind], cart, c);
    FiledUnderOwnType(registry, c.kind);
    if c.kind == CartWise.Type {
      assert registry[c.kind] == CartWiseProcessor;
      CartWiseLinesExact(cart, d, CartTotal(cart));
      Round2Idempotent(d);
    } else {
      assert registry[c.kind] == BxGyProcessor;
      BxGyLinesMatchProcessor(cart, c.asBxGy);
    }
  }

  /** The PRODUCT_WISE coupon of the example below: 10% off product 7. */
  function TenPercentOffSeven(): Coupon {
    Coupon(1, ProductWise.Type, Some(true), None, None,
           Some(ProductWisePayload(Some([7]), Some(10.0), None, None)), None)
  }

  /** One unit of product 7 at 1.25, with 10% off, is listed at 0.13 ... */
  lemma ProductWiseListedDiscount()
    ensures Offers(Current([TenPercentOffSeven()], 0), Registered([CartWiseProcessor, ProductWiseProcessor, BxGyProcessor]), [CartItem(7, 1, 1.25)])
            == [ApplicableCoupon(1, ProductWise.Type, 0.13)]
  {
    var it := CartItem(7, 1, 1.25);
    var c := TenPercentOffSeven();
    var registry := Registered([CartWiseProcessor, ProductWiseProcessor, BxGyProcessor]);
    AllThreeRegistered(ProductWise.Type);
    assert registry[ProductWise.Type] == ProductWiseProcessor;
    ProductWiseResidualOvershoots();
    assert ProductWise.Applicable([it], c.asProductWise) by {
      assert ProductWise.Qualifies(c.asProductWise.value, [it][0]);
    }
    assert [c][..0] == [];
    assert Current([c], 0) == [c];
  }

  /** ... but applied at 0.14: for PRODUCT_WISE the applied discount can
      exceed the processor's. */
  lemma ProductWiseAppliedDiscount()
    ensures var it := CartItem(7, 1, 1.25);
            Outcome([TenPercentOffSeven()], Registered([CartWiseProcessor, ProductWiseProcessor, BxGyProcessor]), 1, [it], 0)
            == Success(UpdatedCart([Carried(it, 0.14)], 1.25, 0.14, 1.11))
  {
    var it := CartItem(7, 1, 1.25);
    var c := TenPercentOffSeven();
    var registry := Registered([CartWiseProcessor, ProductWiseProcessor, BxGyProcessor]);
    AllThreeRegistered(ProductWise.Type);
    assert registry[ProductWise.Type] == ProductWiseProcessor;
    ProductWiseResidualOvershoots();
    assert ProductWise.Applicable([it], c.asProductWise) by {
      assert ProductWise.Qualifies(c.asProductWise.value, [it][0]);
    }
    assert FindById([c], 1) == Some(c) && Active(c, 0);
    var items := Distribute(c, [it], 0.13);
    assert items == [Carried(it, 0.14)];
    assert [it][..0] == [];
    assert SumDiscounts(items) == 0.14;
    assert CartTotal([it]) == 1.25;
    assert IsCents(1.25) && IsCents(0.14);
    CentsAddSub(1.25, 0.14);
    Round2Idempotent(1.25);
    Round2Idempotent(0.14);
    Round2Idempotent(1.11);
  }
}
