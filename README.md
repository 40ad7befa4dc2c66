# Coupon discount engine, modelled in Dafny

This project models the discount engine of monkEcommerce, a Spring service
that stores coupons and applies them to shopping carts. Three kinds of coupon
exist:

- `CART_WISE`: a percentage off the whole cart once its total reaches a
  threshold, optionally capped.
- `PRODUCT_WISE`: a percentage off the units of listed products, with an
  optional minimum and maximum quantity per line.
- `BXGY`: buy a number of units among some products and get units of other
  products free. The free units go to the most expensive eligible lines
  first, at most a given number of times.

Each kind has a processor that answers two questions about a cart and a
coupon: whether the coupon applies (`isApplicable`) and what it saves
(`calculateDiscount`). A `ProcessorRegistry` files the processors under their
type tags. `CouponService` uses them in two ways:

- `findApplicableCoupons` lists every enabled, unexpired coupon that applies
  with a positive discount.
- `applyCoupon` checks one coupon. It then spreads the processor's discount
  over the cart's lines with a strategy per kind, and prices the cart.

The Dafny modules follow the source's classes:

| module | file | models |
|---|---|---|
| `Model` | model.dfy | the cart, coupon, payload and output records |
| `Arith` | arith.dfy | `BigDecimal` `HALF_UP` rounding to 2 and 8 places; Java's `int` division and `Math.min` |
| `CartWise`, `ProductWise`, `BxGy` | cart_wise.dfy, product_wise.dfy, bxgy.dfy | the three processors |
| `Processors` | processors.dfy | the `CouponProcessor` interface, as a datatype over the three implementations |
| `Registry` | registry.dfy | `ProcessorRegistry`, a class whose constructor fills its map |
| `Distribution` | distribution.dfy | the three per-line distributors of `CouponService` and its fallback |
| `CouponService` | service.dfy | `getById`, `findApplicableCoupons`, `applyCoupon` |

Money is a Dafny `real`, which is exact like `BigDecimal`. Every
`setScale(_, HALF_UP)` is written out as rounding half away from zero.

Loops of the source are methods with loops:

- `ProductWiseProcessor`'s loops;
- `BxGyProcessor.calculateDiscount`;
- the registry constructor;
- `findApplicableCoupons`;
- each distributor.

Each such method is proved equal to a function of its inputs. The
properties are then proved about those functions. The two `CouponService`
entry points return exactly what the functions `Offers` and `Outcome` give.

Five behaviours of the code run against what a reader of the entry points
might expect (an exact total, one output line per cart line, no discount on
an untargeted line, one notion of an active coupon), and the model keeps the
code's behaviour:

- **The `PRODUCT_WISE` total is not always the processor's discount.**
  `applyProductWiseDiscount` adds to the first line the difference between
  the processor's discount and the unrounded sum of the line discounts,
  rounded to cents. That sum is not the sum of the rounded line discounts the
  lines carry. So the applied total can differ from the listed discount by up
  to a cent. One unit at 1.25 with 10% off is listed at 0.13 and applied at
  0.14 (`CouponService.ProductWiseListedDiscount`,
  `CouponService.ProductWiseAppliedDiscount`). When every line discount is
  whole cents, the two agree (`Distribution.ProductWiseExactWhenCents`).
- **The `PRODUCT_WISE` residual can land on a product outside the target
  set.** The difference goes to the first line of the cart whatever its
  product, so a line the coupon does not target can carry a non-zero
  discount. An untargeted first line followed by one unit at 1.25 of the
  target product, at 10% off, carries 0.01
  (`Distribution.NonTargetFirstLineGetsResidual`).
- **`BXGY` keeps one output line per product, not one per cart line.** The
  lines go through a `LinkedHashMap` keyed by product id. Two cart lines of
  the same product become one output line, in the place of the product's
  first line and carrying the last line's quantity and price
  (`Distribution.BxGyLinesOnePerProduct`, `Distribution.PreparedRepeatedProduct`).
- **The aggregate discount equals the processor's discount only sometimes.**
  This holds for `BXGY` and for `CART_WISE` on a non-empty cart with a
  non-zero total (`CouponService.AppliedDiscountIsProcessors`). A `CART_WISE`
  coupon on a cart whose total is zero, or on an empty cart, applies a
  discount of 0.
- **The listing and `applyCoupon` test expiry differently.** The listing
  keeps a coupon when its expiry is strictly after now. `applyCoupon` refuses
  a coupon only when its expiry is strictly before now. At the instant of
  expiry, a coupon is not listed but can still be applied
  (`CouponService.OnOfferAndActive`).

## Model

Source paths are relative to the repository root.

| member | source | states |
|---|---|---|
| Arith.Min | src/main/java/com/manugoswami/monk/processor/impl/BxGyProcessor.java:69 | `Math.min`: the result is at most both arguments and is one of them |
| Arith.JavaDiv | src/main/java/com/manugoswami/monk/processor/impl/BxGyProcessor.java:50 | Java `int` division agrees with Euclidean division on non-negative operands; a quotient of operands of opposite sign is at most 0, one of like sign at least 0 |
| Arith.RoundToInt | src/main/java/com/manugoswami/monk/processor/impl/CartWiseProcessor.java:44 | rounding to a whole number moves by at most one half and keeps the sign |
| Arith.Round2 | src/main/java/com/manugoswami/monk/processor/impl/CartWiseProcessor.java:44 | `setScale(2, HALF_UP)` gives whole cents, within half a cent of its argument, of the same sign |
| Arith.Round8 | src/main/java/com/manugoswami/monk/processor/impl/CartWiseProcessor.java:40 | division to 8 places `HALF_UP` lies within half of 10^-8 of the exact quotient, of the same sign |
| Arith.Round2Idempotent | src/main/java/com/manugoswami/monk/processor/impl/CartWiseProcessor.java:44 | an amount already in whole cents is unchanged by rounding |
| Arith.Round2Monotone | src/main/java/com/manugoswami/monk/processor/impl/CartWiseProcessor.java:44 | rounding to cents preserves order |
| Arith.Round8Monotone | src/main/java/com/manugoswami/monk/processor/impl/CartWiseProcessor.java:40 | rounding to 8 places preserves order |
| Arith.Round2TieAwayFromZero | src/main/java/com/manugoswami/monk/processor/impl/CartWiseProcessor.java:44 | `HALF_UP` rounds a half cent away from zero, for positive and negative amounts |
| Arith.RoundedTwice | src/main/java/com/manugoswami/monk/service/CouponService.java:184-187 | rounding to 8 places and then to 2 stays within 0.005000005 of the exact value |
| Arith.CentsAddSub | src/main/java/com/manugoswami/monk/service/CouponService.java:147-149 | sums and differences of whole-cent amounts are whole cents |
| Model.CartTotal | src/main/java/com/manugoswami/monk/processor/impl/CartWiseProcessor.java:55-60 | definition: the left fold of `price * quantity` over the lines, 0 for an empty cart; its properties are `Model.CartTotalAppend`, `Model.CartTotalCons` and `Model.CartTotalNonNegative` |
| Model.CartTotalAppend | src/main/java/com/manugoswami/monk/processor/impl/CartWiseProcessor.java:55-60 | the cart total splits over a concatenation of carts |
| Model.CartTotalCons | src/main/java/com/manugoswami/monk/processor/impl/CartWiseProcessor.java:55-60 | the cart total is the first line's `price * quantity` plus the rest's total |
| Model.CartTotalNonNegative | src/main/java/com/manugoswami/monk/processor/impl/CartWiseProcessor.java:55-60 | lines with non-negative prices and quantities have a non-negative total |
| Model.SumDiscountsSnoc | src/main/java/com/manugoswami/monk/service/CouponService.java:142-145 | adding a line adds its discount to the lines' sum |
| Model.SumDiscountsAppend | src/main/java/com/manugoswami/monk/service/CouponService.java:142-145 | the sum of line discounts splits over a concatenation |
| CartWise.CalculateDiscount | src/main/java/com/manugoswami/monk/processor/impl/CartWiseProcessor.java:34-48 | the discount is whole cents, and 0 when the payload cannot be read |
| CartWise.Capped | src/main/java/com/manugoswami/monk/processor/impl/CartWiseProcessor.java:41-43 | with a cap, the result is the smaller of the discount and the cap (one of the two, at most both); without one, the discount itself |
| CartWise.DiscountCapped | src/main/java/com/manugoswami/monk/processor/impl/CartWiseProcessor.java:34-48 | with a whole-cent cap, the discount never exceeds the cap |
| CartWise.DiscountNonNegative | src/main/java/com/manugoswami/monk/processor/impl/CartWiseProcessor.java:34-48 | non-negative lines, percent and cap give a non-negative discount |
| CartWise.DiscountMonotone | src/main/java/com/manugoswami/monk/processor/impl/CartWiseProcessor.java:34-48 | a cart with a larger total never gets a smaller discount |
| CartWise.PercentOfMonotone | src/main/java/com/manugoswami/monk/processor/impl/CartWiseProcessor.java:40 | the percentage, rounded to 8 places, grows with the total |
| CartWise.IsApplicable | src/main/java/com/manugoswami/monk/processor/impl/CartWiseProcessor.java:23-32 | definition: the payload could be read and the cart total reaches the threshold, a missing threshold counting as 0; an unreadable payload makes it false; its property is `CartWise.ApplicableMonotone` |
| CartWise.ApplicableMonotone | src/main/java/com/manugoswami/monk/processor/impl/CartWiseProcessor.java:23-32 | a coupon that applies still applies after lines with non-negative prices and quantities are added |
| CartWise.TenPercentOfTwoHundred | src/main/java/com/manugoswami/monk/processor/impl/CartWiseProcessor.java:23-48 | a 200.00 cart over a 150 threshold with 10% off and a cap of 1000 qualifies for 20.00 |
| ProductWise.IsApplicable | src/main/java/com/manugoswami/monk/processor/impl/ProductWiseProcessor.java:22-37 | the loop answers whether some line of a listed product meets the minimum quantity; false without a product list or payload |
| ProductWise.CalculateDiscount | src/main/java/com/manugoswami/monk/processor/impl/ProductWiseProcessor.java:39-62 | the loop computes the sum over qualifying lines of price times eligible units times percent/100, rounded to cents; 0 without a list, a percent or a payload |
| ProductWise.QualifyingLines | src/main/java/com/manugoswami/monk/processor/impl/ProductWiseProcessor.java:45-48 | the lines kept are cart lines of a listed product that meet the minimum |
| ProductWise.OnlyQualifyingLinesCount | src/main/java/com/manugoswami/monk/processor/impl/ProductWiseProcessor.java:44-58 | lines of unlisted products and lines under the minimum contribute nothing |
| ProductWise.NoQualifyingLineNoDiscount | src/main/java/com/manugoswami/monk/processor/impl/ProductWiseProcessor.java:44-58 | with no qualifying line the unrounded discount is 0 |
| ProductWise.NotApplicableNoDiscount | src/main/java/com/manugoswami/monk/processor/impl/ProductWiseProcessor.java:22-62 | when the coupon does not apply, its discount is 0 |
| ProductWise.LineDiscountBounds | src/main/java/com/manugoswami/monk/processor/impl/ProductWiseProcessor.java:47-54 | one line's discount lies between 0 and the line's `price * quantity` |
| ProductWise.RawDiscountBounds | src/main/java/com/manugoswami/monk/processor/impl/ProductWiseProcessor.java:44-57 | the unrounded discount lies between 0 and the cart total |
| ProductWise.DiscountBounds | src/main/java/com/manugoswami/monk/processor/impl/ProductWiseProcessor.java:39-62 | the discount lies between 0 and the cart total rounded to cents |
| ProductWise.TwentyPercentOfThreeUnits | src/main/java/com/manugoswami/monk/processor/impl/ProductWiseProcessor.java:22-62 | three units at 50.00, 20% off, minimum 2: the coupon applies and saves 30.00 |
| BxGy.TimesApplicable | src/main/java/com/manugoswami/monk/processor/impl/BxGyProcessor.java:50-54 | the number of repetitions is non-negative, at most the repetition limit when positive, and at most the bought units over the required count |
| BxGy.IsApplicable | src/main/java/com/manugoswami/monk/processor/impl/BxGyProcessor.java:25-39 | definition: the payload could be read, the buy list is present and non-empty, the buy count is present and positive, and the cart holds at least that many units of listed buy products; its property is `BxGy.ApplicableAtLeastOnce` |
| BxGy.ApplicableAtLeastOnce | src/main/java/com/manugoswami/monk/processor/impl/BxGyProcessor.java:25-54 | a coupon that applies is earned at least once |
| BxGy.InsertPermutes | src/main/java/com/manugoswami/monk/processor/impl/BxGyProcessor.java:60-63 | inserting into the sorted list is a permutation |
| BxGy.InsertSorted | src/main/java/com/manugoswami/monk/processor/impl/BxGyProcessor.java:60-63 | inserting into a list sorted by descending price keeps it sorted |
| BxGy.InsertStable | src/main/java/com/manugoswami/monk/processor/impl/BxGyProcessor.java:60-63 | among the lines of one price, the inserted line comes before those already sorted, which keep their order (the sort inserts the earlier cart line into the sorted later ones, so the cart order survives) |
| BxGy.SortSortsAndPermutes | src/main/java/com/manugoswami/monk/processor/impl/BxGyProcessor.java:60-63 | the eligible lines come out sorted by descending price and are a permutation of the input |
| BxGy.SortStable | src/main/java/com/manugoswami/monk/processor/impl/BxGyProcessor.java:62 | the sort is stable: the lines of each price keep their cart order |
| BxGy.SortKeepsLines | src/main/java/com/manugoswami/monk/processor/impl/BxGyProcessor.java:60-63 | sorting neither adds nor drops lines |
| BxGy.InsertTotal | src/main/java/com/manugoswami/monk/processor/impl/BxGyProcessor.java:60-63 | inserting a line adds its `price * quantity` to the total |
| BxGy.SortTotal | src/main/java/com/manugoswami/monk/processor/impl/BxGyProcessor.java:60-63 | sorting does not change the lines' total |
| BxGy.GetEligible | src/main/java/com/manugoswami/monk/processor/impl/BxGyProcessor.java:60-61 | every eligible line is a cart line of a product on the get list |
| BxGy.GreedyValueOfAllocation | src/main/java/com/manugoswami/monk/processor/impl/BxGyProcessor.java:65-72 | the greedy loop's sum is the value of the allocation it makes |
| BxGy.ZeroAllocationValue | src/main/java/com/manugoswami/monk/processor/impl/BxGyProcessor.java:68 | with nothing left to give, the allocation is worth 0 |
| BxGy.AllocationBounds | src/main/java/com/manugoswami/monk/processor/impl/BxGyProcessor.java:65-72 | each line gets between 0 and its quantity free; the free units total at most the allowance; a line is left short only when the allowance runs out |
| BxGy.AllocationGreedy | src/main/java/com/manugoswami/monk/processor/impl/BxGyProcessor.java:67-71 | once a line is not wholly free, no later line gets a free unit |
| BxGy.GreedyValueBounds | src/main/java/com/manugoswami/monk/processor/impl/BxGyProcessor.java:65-72 | the free value lies between 0 and the eligible lines' total |
| BxGy.GreedyValueAtMostRate | src/main/java/com/manugoswami/monk/processor/impl/BxGyProcessor.java:65-72 | n free units are worth at most n times the highest price |
| BxGy.GreedyValueIncrement | src/main/java/com/manugoswami/monk/processor/impl/BxGyProcessor.java:65-72 | d more free units add at most d times the highest price |
| BxGy.GreedyIsOptimal | src/main/java/com/manugoswami/monk/processor/impl/BxGyProcessor.java:60-72 | on lines sorted by descending price, the greedy choice is worth at least any other choice within the quantities and the allowance |
| BxGy.Discount | src/main/java/com/manugoswami/monk/processor/impl/BxGyProcessor.java:41-77 | the discount is whole cents |
| BxGy.CalculateDiscount | src/main/java/com/manugoswami/monk/processor/impl/BxGyProcessor.java:41-77 | the loop computes the greedy value of the sorted eligible lines under the free-unit allowance, rounded to cents, or 0 on every early exit and exception |
| BxGy.DiscountBounds | src/main/java/com/manugoswami/monk/processor/impl/BxGyProcessor.java:41-77 | the discount lies between 0 and the eligible lines' total rounded to cents |
| BxGy.BuyTwoGetOneTwice | src/main/java/com/manugoswami/monk/processor/impl/BxGyProcessor.java:25-77 | six units at 10.00, buy 2 get 1, limit 2: the coupon applies and saves 20.00 |
| Processors.Type | src/main/java/com/manugoswami/monk/processor/impl/CartWiseProcessor.java:18-21 | each processor's tag names that processor and no other |
| Processors.OfTypeInverse | src/main/java/com/manugoswami/monk/processor/impl/BxGyProcessor.java:20-23 | exactly the three tags `CART_WISE`, `PRODUCT_WISE`, `BXGY` name a processor, each the one reporting it |
| Processors.Discount | src/main/java/com/manugoswami/monk/processor/CouponProcessor.java:14 | every processor's discount is whole cents |
| Processors.IsApplicable | src/main/java/com/manugoswami/monk/processor/CouponProcessor.java:12 | dispatches to the implementation's applicability test |
| Processors.CalculateDiscount | src/main/java/com/manugoswami/monk/processor/CouponProcessor.java:14 | dispatches to the implementation's discount |
| Processors.ApplyAndReturnTotalDiscount | src/main/java/com/manugoswami/monk/processor/impl/ProductWiseProcessor.java:64-67 | every implementation returns what `calculateDiscount` returns |
| Processors.DiscountNonNegative | src/main/java/com/manugoswami/monk/processor/CouponProcessor.java:14 | on non-negative lines and a coupon with sane amounts, every processor's discount is non-negative |
| Registry.RegisteredTags | src/main/java/com/manugoswami/monk/processor/ProcessorRegistry.java:13-17 | a tag is registered exactly when some given processor reports it, and it is filed under one that does |
| Registry.RegisteredConsistent | src/main/java/com/manugoswami/monk/processor/ProcessorRegistry.java:13-17 | every registered tag is filed under a processor reporting it |
| Registry.ProcessorRegistry.constructor | src/main/java/com/manugoswami/monk/processor/ProcessorRegistry.java:13-17 | the loop puts every processor under its tag, later ones replacing earlier ones, and leaves the registry consistent |
| Registry.ProcessorRegistry.GetProcessor | src/main/java/com/manugoswami/monk/processor/ProcessorRegistry.java:19-21 | a processor is found exactly when the tag is registered, and in a consistent registry it reports that tag |
| Registry.AllThreeRegistered | src/main/java/com/manugoswami/monk/processor/ProcessorRegistry.java:13-17 | built from the three processors, the registry supports exactly the three tags, each with its own processor |
| Distribution.ZeroLinesCarry | src/main/java/com/manugoswami/monk/service/CouponService.java:130-139 | the fallback copies every cart line, in order, with a zero discount, and they sum to 0 |
| Distribution.ZeroDiscountLines | src/main/java/com/manugoswami/monk/service/CouponService.java:130-139 | the loop appends exactly the zero-discount lines |
| Distribution.SumOfCents | src/main/java/com/manugoswami/monk/service/CouponService.java:142-145 | lines of whole-cent discounts sum to whole cents |
| Distribution.ApplyCartWiseDiscount | src/main/java/com/manugoswami/monk/service/CouponService.java:160-202 | the loop appends the proportional shares, the last line taking the remainder, or zero lines when the total is 0 |
| Distribution.SharesCarry | src/main/java/com/manugoswami/monk/service/CouponService.java:178-201 | each share line copies its cart line and carries that line's rounded proportional share, in whole cents |
| Distribution.CartWiseLinesCarry | src/main/java/com/manugoswami/monk/service/CouponService.java:160-202 | the lines copy the cart; all but the last carry their proportional share; with a whole-cent discount every line is whole cents |
| Distribution.CartWiseLinesExact | src/main/java/com/manugoswami/monk/service/CouponService.java:178-201 | the lines sum to exactly the discount, or to 0 when the total is 0 or the cart is empty |
| Distribution.ShareNearProportion | src/main/java/com/manugoswami/monk/service/CouponService.java:184-187 | a share is within 0.005000005 of the exact proportion |
| Distribution.ApplyProductWiseDiscount | src/main/java/com/manugoswami/monk/service/CouponService.java:204-267 | the loop appends each line with its rounded discount, adds the residual to the first line, or appends zero lines when the payload cannot be read |
| Distribution.ItemDiscount | src/main/java/com/manugoswami/monk/service/CouponService.java:218-235 | one line's unrounded discount: 0 for a product not listed, a line under the minimum or a missing percent; on a line of non-negative quantity under a non-negative cap, the processor's discount for that line |
| Distribution.HelperLineAgrees | src/main/java/com/manugoswami/monk/service/CouponService.java:220-235 | on one line of non-negative quantity, with a non-negative cap and a percent, the distributor's line discount is the processor's |
| Distribution.RoundedLinesCarry | src/main/java/com/manugoswami/monk/service/CouponService.java:217-246 | each line copies its cart line and carries its own discount rounded to cents |
| Distribution.ProductWiseLinesCarry | src/main/java/com/manugoswami/monk/service/CouponService.java:204-267 | the lines copy the cart; each line but the first carries its rounded discount; the first also carries the residual |
| Distribution.HelperAgreesWithProcessor | src/main/java/com/manugoswami/monk/service/CouponService.java:220-235 | with a percent set, non-negative quantities on every line and a non-negative cap, the distributor's unrounded sum is the processor's unrounded discount (on a negative quantity or cap the distributor counts 0 where the processor counts a negative amount) |
| Distribution.RoundedLinesSum | src/main/java/com/manugoswami/monk/service/CouponService.java:238-245 | when every line discount is whole cents, the rounded lines sum to the unrounded total |
| Distribution.ProductWiseExactWhenCents | src/main/java/com/manugoswami/monk/service/CouponService.java:248-255 | when every recomputed line discount is whole cents, the lines sum to exactly the processor's discount, whatever the payload and quantities |
| Distribution.SumDiscountsBumpFirst | src/main/java/com/manugoswami/monk/service/CouponService.java:252-254 | adding the residual to the first line adds it to the sum of the lines |
| Distribution.ResidualAtMostOneCent | src/main/java/com/manugoswami/monk/service/CouponService.java:248-250 | the residual added to the first line is at most one cent either way |
| Distribution.ProductWiseResidualOvershoots | src/main/java/com/manugoswami/monk/service/CouponService.java:248-255 | one unit at 1.25 with 10% off: the processor says 0.13, the line carries 0.14 |
| Distribution.NonTargetFirstLineGetsResidual | src/main/java/com/manugoswami/monk/service/CouponService.java:252-254 | an untargeted first line before one targeted unit at 1.25, 10% off: the processor says 0.13 and the untargeted line carries the residual 0.01 |
| Distribution.ValuesOf | src/main/java/com/manugoswami/monk/service/CouponService.java:335 | `values()` lists one entry per key, in key order |
| Distribution.Prepared | src/main/java/com/manugoswami/monk/service/CouponService.java:299-308 | the prepared map is well-formed, has an entry for every cart line's product and carries no discount yet |
| Distribution.Put | src/main/java/com/manugoswami/monk/service/CouponService.java:302 | `LinkedHashMap.put`: a new key goes last, a present key keeps its place; the key takes the new value and every other entry is unchanged |
| Distribution.FirstOccurrencesDedups | src/main/java/com/manugoswami/monk/service/CouponService.java:299-308 | dropping repeats leaves every id of the input exactly once and nothing else |
| Distribution.PreparedOrderAndLines | src/main/java/com/manugoswami/monk/service/CouponService.java:299-308 | the map's keys are the cart's product ids in order of first appearance; each product's entry is its last cart line with a zero discount |
| Distribution.PreparedRepeatedProduct | src/main/java/com/manugoswami/monk/service/CouponService.java:299-308 | lines of products 7, 3, 7 give keys [7, 3], with the later line of 7 filed under 7 |
| Distribution.Allocated | src/main/java/com/manugoswami/monk/service/CouponService.java:317-332 | crediting free units changes no key and no key order |
| Distribution.CreditLine | src/main/java/com/manugoswami/monk/service/CouponService.java:326-329 | crediting one line changes no key and no key order |
| Distribution.AllocatedValid | src/main/java/com/manugoswami/monk/service/CouponService.java:317-332 | the credited map stays well-formed |
| Distribution.EligibleHaveEntries | src/main/java/com/manugoswami/monk/service/CouponService.java:311-328 | every eligible line's product has an entry, so `map.get` never returns null |
| Distribution.ApplyBxGyDiscount | src/main/java/com/manugoswami/monk/service/CouponService.java:269-347 | the method appends the values of the prepared and credited map, or zero lines when the payload cannot be read or the required count is 0 |
| Distribution.Prepare | src/main/java/com/manugoswami/monk/service/CouponService.java:299-308 | the loop builds the prepared map |
| Distribution.Credit | src/main/java/com/manugoswami/monk/service/CouponService.java:317-332 | the loop credits each eligible line's free units to its product's entry |
| Distribution.AllocatedKeepsLines | src/main/java/com/manugoswami/monk/service/CouponService.java:317-332 | crediting keeps the map valid and its keys, and each entry keeps its quantity and price |
| Distribution.AllocatedCredits | src/main/java/com/manugoswami/monk/service/CouponService.java:317-332 | each product's entry gains exactly the greedy value of its own lines |
| Distribution.SumForIsGreedy | src/main/java/com/manugoswami/monk/service/CouponService.java:317-332 | summed over the products, the credits are the greedy value |
| Distribution.BxGyLinesTotal | src/main/java/com/manugoswami/monk/service/CouponService.java:269-347 | the lines sum to the greedy value of the sorted eligible lines, or to 0 when nothing is free |
| Distribution.BxGyLinesMatchProcessor | src/main/java/com/manugoswami/monk/service/CouponService.java:269-347 | for an applicable coupon, the lines' sum rounded to cents is the processor's discount |
| Distribution.NothingEligible | src/main/java/com/manugoswami/monk/service/CouponService.java:310-315 | without a get list no line is eligible |
| Distribution.BxGyLinesOnePerProduct | src/main/java/com/manugoswami/monk/service/CouponService.java:299-335 | the lines' product ids are exactly the cart's, in order of first appearance, each once; each line carries the quantity and price of the last cart line of its product |
| Distribution.ValuesFollowKeys | src/main/java/com/manugoswami/monk/service/CouponService.java:335 | the j-th value is the line of the j-th key |
| Distribution.ValuesDistinct | src/main/java/com/manugoswami/monk/service/CouponService.java:335 | the values of a well-formed map have distinct product ids |
| Distribution.ValuesCover | src/main/java/com/manugoswami/monk/service/CouponService.java:299-335 | every cart line's product has a line among the values |
| Distribution.BxGyLinesBuyTwoGetOneTwice | src/main/java/com/manugoswami/monk/service/CouponService.java:269-347 | six units at 10.00, buy 2 get 1, limit 2: one line carrying 20.00 |
| CouponService.FindById | src/main/java/com/manugoswami/monk/service/CouponService.java:44-48 | a coupon found is stored and has the id; none is found exactly when no stored coupon has the id |
| CouponService.FindByIdFinds | src/main/java/com/manugoswami/monk/service/CouponService.java:44-48 | with distinct ids, every stored coupon is found by its id |
| CouponService.OnOfferAndActive | src/main/java/com/manugoswami/monk/service/CouponService.java:98-101 | a listed coupon passes the activity check; an active coupon is unlisted only at the instant it expires |
| CouponService.Current | src/main/java/com/manugoswami/monk/service/CouponService.java:68-72 | exactly the enabled stored coupons with no expiry or one after now |
| CouponService.Offers | src/main/java/com/manugoswami/monk/service/CouponService.java:76-90 | definition: for each coupon in order, one entry when its type has a processor that finds it applicable with a positive discount, none otherwise; its properties are `CouponService.OffersExactly` and `CouponService.ListedCouponApplies` |
| CouponService.FindApplicableCoupons | src/main/java/com/manugoswami/monk/service/CouponService.java:65-92 | the loop lists, in stored order, the entries of the current coupons |
| CouponService.OffersExactly | src/main/java/com/manugoswami/monk/service/CouponService.java:76-90 | an entry is listed exactly when some coupon has a registered type, applies and has a positive discount; the listed discount is whole cents |
| CouponService.ListedCouponApplies | src/main/java/com/manugoswami/monk/service/CouponService.java:65-110 | every listed coupon passes all of `applyCoupon`'s checks at the same instant |
| CouponService.Priced | src/main/java/com/manugoswami/monk/service/CouponService.java:142-156 | the applied cart keeps the lines, and its three amounts are whole cents |
| CouponService.PricedFinal | src/main/java/com/manugoswami/monk/service/CouponService.java:142-156 | the final price is the total less the discount within half a cent, exactly when the total is whole cents |
| CouponService.Outcome | src/main/java/com/manugoswami/monk/service/CouponService.java:94-157 | definition: NOT_FOUND, then not active, then no processor for the type, then not applicable, checked in that order, else the cart priced with the distributed discount; its properties are `CouponService.NotFoundIffMissing` and `CouponService.AppliedOnlyWhenChecked` |
| CouponService.ApplyCoupon | src/main/java/com/manugoswami/monk/service/CouponService.java:94-157 | returns the error of the first failed check (not found, not active, unsupported type, not applicable) or the priced cart |
| CouponService.Apply | src/main/java/com/manugoswami/monk/service/CouponService.java:112-156 | asks the processor for the discount, distributes it by type and prices the cart |
| CouponService.DistributeLines | src/main/java/com/manugoswami/monk/service/CouponService.java:120-140 | selects the distributor by the coupon's type tag, with the zero-discount fallback |
| CouponService.NotFoundIffMissing | src/main/java/com/manugoswami/monk/service/CouponService.java:94-95 | NOT_FOUND exactly when no stored coupon has the id |
| CouponService.AppliedOnlyWhenChecked | src/main/java/com/manugoswami/monk/service/CouponService.java:95-110 | success implies the coupon exists, is active, has a registered type and applies; with a consistent registry, the fallback branch is never taken |
| CouponService.FiledUnderOwnType | src/main/java/com/manugoswami/monk/service/CouponService.java:103 | in a consistent registry, the processor found for a type is the one reporting it |
| CouponService.AppliedLinesCarryCart | src/main/java/com/manugoswami/monk/service/CouponService.java:120-140 | except for `BXGY`, the applied lines copy the cart's lines one for one |
| CouponService.AppliedBxGyOneLinePerProduct | src/main/java/com/manugoswami/monk/service/CouponService.java:127-128 | for `BXGY`, the applied lines are the cart's products in order of first appearance, each once, each carrying the quantity and price of its last cart line |
| CouponService.AppliedDiscountIsProcessors | src/main/java/com/manugoswami/monk/service/CouponService.java:112-145 | for `BXGY`, and for `CART_WISE` on a non-empty cart with a non-zero total, the applied discount is the processor's |
| CouponService.TenPercentOffSeven | src/main/java/com/manugoswami/monk/model/Coupon.java:11-31 | example data: an enabled `PRODUCT_WISE` coupon with id 1 and no expiry, 10% off product 7 with no minimum or maximum quantity; used by `CouponService.ProductWiseListedDiscount` and `CouponService.ProductWiseAppliedDiscount` |
| CouponService.ProductWiseListedDiscount | src/main/java/com/manugoswami/monk/service/CouponService.java:76-86 | one unit at 1.25 with 10% off is listed with a discount of 0.13 |
| CouponService.ProductWiseAppliedDiscount | src/main/java/com/manugoswami/monk/service/CouponService.java:204-255 | the same coupon is applied with a discount of 0.14 and a final price of 1.11 |

## Left out

- Java `int` overflow: quantities, `timesApplicable * getQuantity` and the summed buy quantity are unbounded integers here. The source wraps them at 32 bits.
- `null`: carts, item lists, items, prices and coupon types are never null in the model. A null payload field is `None`, and each use handles it as the source does: a default, or the exception the processor or distributor catches.
- Payload decoding: the Jackson `readValue` of the coupon's JSON is not modelled. A coupon carries its payload already decoded against each schema, with `None` when decoding fails.
- Two Jackson versions: `CartWiseProcessor` and `ProductWiseProcessor` decode with the Jackson 3 `tools.jackson.databind.ObjectMapper`, while `BxGyProcessor` and `CouponService` use the Jackson 2 `com.fasterxml.jackson.databind.ObjectMapper`. The model assumes the two decode a payload alike: the one `asProductWise` feeds both the processor and the distributor's own `readValue` (`CouponService.java:211-213`), and a payload one version accepts and the other rejects is not modelled.
- The repository (`findAll`, `findById`) and `Instant.now()`: the stored coupons and the current instant are parameters of the service methods.
- HTTP: the controller is not modelled. `ResponseStatusException` is modelled as the `ApplyError` result.
- Spring wiring: which processors the container hands to the registry is not modelled. Only `CartWiseProcessor` is a Spring component, so a running service may register that processor alone. The registry takes its processors as a parameter.
- Exceptions: they are modelled by the value each handler returns (0, false, or zero-discount lines). The catch in `findApplicableCoupons` never fires, because every processor catches its own exceptions.
- In-place mutation: each distributor returns the lines it would append to the shared `updated` list. `first.setTotalDiscount` and `u.setTotalDiscount` are modelled as building a new line.
- CRUD (`create`, `getAll`, `update`, `delete`) and the `code` and `createdAt` fields of a coupon are not part of this model.
