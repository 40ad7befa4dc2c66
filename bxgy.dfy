/** The BXGY processor: buy `buyRequiredCount` units of the buy products,
    get `getQuantity` units of the get products free, per application.
    Applicability is a stream sum; the discount sorts the get-eligible lines
    by price, highest first, and frees units greedily in a loop. */
module BxGy {
  import opened Wrappers
  import opened Arith
  import opened Model

  /** The type tag this processor reports. */
  const Type: string := "BXGY"

  /** The line's product is in the (possibly missing) id list. */
  predicate Listed(ids: Option<seq<int>>, it: CartItem) {
    ids.Some? && it.productId in ids.value
  }

  /** The units in the cart of the listed products. */
  function BuyQty(cart: Cart, ids: Option<seq<int>>): int {
    if cart == [] then 0
    else BuyQty(cart[..|cart| - 1], ids) + (if Listed(ids, cart[|cart| - 1]) then cart[|cart| - 1].quantity else 0)
  }

  /** `isApplicable`: the payload could be read, names some buy product and a
      positive buy count, and the cart holds at least that many buy units. */
  function IsApplicable(cart: Cart, payload: Option<BxGyPayload>): bool {
    && payload.Some?
    && payload.value.buyProductIds.Some?
    && |payload.value.buyProductIds.value| > 0
    && payload.value.buyRequiredCount.Some?
    && payload.value.buyRequiredCount.value > 0
    && BuyQty(cart, payload.value.buyProductIds) >= payload.value.buyRequiredCount.value
  }

  /** How often the offer applies: the whole number of buy counts in the buy
      units (never negative), capped by a positive repetition limit. */
  function TimesApplicable(buyQty: int, required: int, limit: Option<int>): (t: int)
    requires required != 0
    ensures t >= 0
    ensures limit.Some? && limit.value > 0 ==> t <= limit.value
    ensures buyQty >= 0 && required > 0 ==> t <= buyQty / required
  {
    var times := JavaDiv(buyQty, required);
    var atLeastZero := if times < 0 then 0 else times;
    if limit.Some? && limit.value > 0 then Min(atLeastZero, limit.value) else atLeastZero
  }

  /** The free units granted: applications times `getQuantity` (a missing
      `getQuantity` counts as 0). */
  function FreeAllowed(buyQty: int, required: int, p: BxGyPayload): int
    requires required != 0
  {
    TimesApplicable(buyQty, required, p.repetitionLimit) * p.getQuantity.GetOr(0)
  }

  /** A coupon that applies applies at least once. */
  lemma ApplicableAtLeastOnce(cart: Cart, p: BxGyPayload)
    requires IsApplicable(cart, Some(p))
    ensures TimesApplicable(BuyQty(cart, p.buyProductIds), p.buyRequiredCount.value, p.repetitionLimit) >= 1
  {
    DivAtLeastOne(BuyQty(cart, p.buyProductIds), p.buyRequiredCount.value);
  }

  // ---------------------------------------------------------------------
  // Stable sort by descending price

  predicate SortedByPriceDesc(s: seq<CartItem>) {
    forall i, j :: 0 <= i < j < |s| ==> s[i].price >= s[j].price
  }

  /** Puts `x` in front of the first element that does not cost more. */
  function Insert(x: CartItem, s: seq<CartItem>): seq<CartItem> {
    if s == [] || x.price >= s[0].price then [x] + s else [s[0]] + Insert(x, s[1..])
  }

  /** The stream's `sorted` with the reversed price comparator: descending
      price, lines of equal price in their original order. */
  function SortByPriceDesc(s: seq<CartItem>): seq<CartItem> {
    if s == [] then [] else Insert(s[0], SortByPriceDesc(s[1..]))
  }

  /** The lines priced exactly `c`, in order. */
  function WithPrice(s: seq<CartItem>, c: real): seq<CartItem> {
    if s == [] then [] else (if s[0].price == c then [s[0]] else []) + WithPrice(s[1..], c)
  }

  lemma {:induction false} InsertPermutes(x: CartItem, s: seq<CartItem>)
    ensures multiset(Insert(x, s)) == multiset([x] + s)
  {
    if s != [] && x.price < s[0].price {
      InsertPermutes(x, s[1..]);
      assert s == [s[0]] + s[1..];
    }
  }

  lemma {:induction false} InsertSorted(x: CartItem, s: seq<CartItem>)
    requires SortedByPriceDesc(s)
    ensures SortedByPriceDesc(Insert(x, s))
  {
    if s != [] && x.price < s[0].price {
      var t := Insert(x, s[1..]);
      InsertSorted(x, s[1..]);
      InsertPermutes(x, s[1..]);
      forall j | 0 <= j < |t| ensures s[0].price >= t[j].price {
        assert t[j] in multiset([x] + s[1..]);
        assert t[j] == x || t[j] in s[1..];
      }
    }
  }

  /** Inserting `x` into a sorted sequence keeps the lines of each price in
      order: among the lines priced `c`, `x` (when priced `c`) comes first,
      followed by those of `s` in their order. */
  lemma {:induction false} InsertStable(x: CartItem, s: seq<CartItem>, c: real)
    requires SortedByPriceDesc(s)
    ensures WithPrice(Insert(x, s), c) == (if x.price == c then [x] else []) + WithPrice(s, c)
  {
    var u := Insert(x, s);
    if s != [] && x.price < s[0].price {
      InsertStable(x, s[1..], c);
      assert u[0] == s[0] && u[1..] == Insert(x, s[1..]);
      assert WithPrice(u, c) == (if s[0].price == c then [s[0]] else []) + WithPrice(u[1..], c);
      assert WithPrice(s, c) == (if s[0].price == c then [s[0]] else []) + WithPrice(s[1..], c);
      if x.price == c {
        assert s[0].price != c;
      }
    } else {
      assert u[0] == x && u[1..] == s;
    }
  }

  /** The sort orders by descending price and loses or adds no line. */
  lemma {:induction false} SortSortsAndPermutes(s: seq<CartItem>)
    ensures SortedByPriceDesc(SortByPriceDesc(s))
    ensures multiset(SortByPriceDesc(s)) == multiset(s)
  {
    if s != [] {
      SortSortsAndPermutes(s[1..]);
      InsertSorted(s[0], SortByPriceDesc(s[1..]));
      InsertPermutes(s[0], SortByPriceDesc(s[1..]));
      assert s == [s[0]] + s[1..];
    }
  }

  /** The sort is stable: the lines of any one price keep their order. */
  lemma {:induction false} SortStable(s: seq<CartItem>, c: real)
    ensures WithPrice(SortByPriceDesc(s), c) == WithPrice(s, c)
  {
    if s != [] {
      SortStable(s[1..], c);
      SortSortsAndPermutes(s[1..]);
      InsertStable(s[0], SortByPriceDesc(s[1..]), c);
    }
  }

  lemma SortKeepsLines(s: seq<CartItem>)
    ensures forall x :: x in SortByPriceDesc(s) <==> x in s
  {
    SortSortsAndPermutes(s);
    forall x ensures x in SortByPriceDesc(s) <==> x in s {
      assert x in SortByPriceDesc(s) <==> x in multiset(SortByPriceDesc(s));
      assert x in s <==> x in multiset(s);
    }
  }

  lemma {:induction false} InsertTotal(x: CartItem, s: seq<CartItem>)
    ensures CartTotal(Insert(x, s)) == LineTotal(x) + CartTotal(s)
  {
    if s != [] && x.price < s[0].price {
      InsertTotal(x, s[1..]);
      var r := Insert(x, s);
      assert r[0] == s[0] && r[1..] == Insert(x, s[1..]);
      CartTotalCons(r);
      CartTotalCons(s);
    } else {
      var r := Insert(x, s);
      assert r[0] == x && r[1..] == s;
      CartTotalCons(r);
    }
  }

  /** Sorting does not change the total. */
  lemma {:induction false} SortTotal(s: seq<CartItem>)
    ensures CartTotal(SortByPriceDesc(s)) == CartTotal(s)
  {
    if s != [] {
      SortTotal(s[1..]);
      InsertTotal(s[0], SortByPriceDesc(s[1..]));
      CartTotalCons(s);
    }
  }

  // ---------------------------------------------------------------------
  // Greedy allocation of free units

  /** The lines of the listed get products, in cart order. */
  function GetEligible(cart: Cart, ids: Option<seq<int>>): (e: Cart)
    ensures forall x :: x in e ==> x in cart && Listed(ids, x)
  {
    if cart == [] then []
    else (if Listed(ids, cart[0]) then [cart[0]] else []) + GetEligible(cart[1..], ids)
  }

  /** The units the greedy loop frees on each line: `min(quantity,
      remaining)` while units remain, nothing once they run out. */
  function Allocation(lines: seq<CartItem>, remaining: int): (a: seq<int>)
    ensures |a| == |lines|
  {
    if lines == [] then []
    else if remaining <= 0 then [0] + Allocation(lines[1..], remaining)
    else
      var free := Min(lines[0].quantity, remaining);
      [free] + Allocation(lines[1..], remaining - free)
  }

  function SumUnits(a: seq<int>): int {
    if a == [] then 0 else a[0] + SumUnits(a[1..])
  }

  /** The price of the units `a` frees on `lines`. */
  function ValueOf(lines: seq<CartItem>, a: seq<int>): real
    requires |a| == |lines|
  {
    if lines == [] then 0.0 else Worth(lines[0], a[0]) + ValueOf(lines[1..], a[1..])
  }

  /** What the greedy loop adds up with `remaining` units to give. */
  function GreedyValue(lines: seq<CartItem>, remaining: int): real {
    if lines == [] || remaining <= 0 then 0.0
    else
      var free := Min(lines[0].quantity, remaining);
      Worth(lines[0], free) + GreedyValue(lines[1..], remaining - free)
  }

  /** The same sum, restricted to the lines of one product: the share the
      distributor credits to that product's entry. */
  function GreedyValueFor(lines: seq<CartItem>, remaining: int, id: int): real {
    if lines == [] || remaining <= 0 then 0.0
    else
      var free := Min(lines[0].quantity, remaining);
      (if lines[0].productId == id then Worth(lines[0], free) else 0.0)
        + GreedyValueFor(lines[1..], remaining - free, id)
  }

  /** The greedy sum is the price of the greedy allocation. */
  lemma {:induction false} GreedyValueOfAllocation(lines: seq<CartItem>, remaining: int)
    ensures GreedyValue(lines, remaining) == ValueOf(lines, Allocation(lines, remaining))
  {
    if lines != [] {
      if remaining <= 0 {
        GreedyValueOfAllocation(lines[1..], remaining);
        ZeroAllocationValue(lines[1..], remaining);
      } else {
        GreedyValueOfAllocation(lines[1..], remaining - Min(lines[0].quantity, remaining));
      }
    }
  }

  lemma {:induction false} ZeroAllocationValue(lines: seq<CartItem>, remaining: int)
    requires remaining <= 0
    ensures ValueOf(lines, Allocation(lines, remaining)) == 0.0
  {
    if lines != [] {
      ZeroAllocationValue(lines[1..], remaining);
    }
  }

  predicate NonNegativeQuantities(lines: seq<CartItem>) {
    forall i :: 0 <= i < |lines| ==> lines[i].quantity >= 0
  }

  /** With non-negative quantities, each line frees between 0 and its
      quantity, the units freed never exceed the units allowed, and fewer
      units are freed only when every line is freed entirely. */
  lemma {:induction false} AllocationBounds(lines: seq<CartItem>, remaining: int)
    requires NonNegativeQuantities(lines)
    ensures var a := Allocation(lines, remaining);
            && (forall i :: 0 <= i < |a| ==> 0 <= a[i] <= lines[i].quantity)
            && 0 <= SumUnits(a) <= (if remaining < 0 then 0 else remaining)
            && (SumUnits(a) < remaining ==> forall i :: 0 <= i < |a| ==> a[i] == lines[i].quantity)
  {
    if lines != [] {
      var a := Allocation(lines, remaining);
      if remaining <= 0 {
        AllocationBounds(lines[1..], remaining);
        assert a == [0] + Allocation(lines[1..], remaining);
        ZeroAllocationSum(lines[1..], remaining);
      } else {
        var free := Min(lines[0].quantity, remaining);
        AllocationBounds(lines[1..], remaining - free);
        assert a == [free] + Allocation(lines[1..], remaining - free);
        assert forall i :: 1 <= i < |a| ==> a[i] == Allocation(lines[1..], remaining - free)[i - 1];
      }
    }
  }

  lemma {:induction false} ZeroAllocationSum(lines: seq<CartItem>, remaining: int)
    requires remaining <= 0
    ensures SumUnits(Allocation(lines, remaining)) == 0
  {
    if lines != [] {
      ZeroAllocationSum(lines[1..], remaining);
    }
  }

  /** Greedy: once a line is not freed entirely, no later line gets a unit. */
  lemma {:induction false} AllocationGreedy(lines: seq<CartItem>, remaining: int, i: int, j: int)
    requires 0 <= i < j < |lines|
    requires Allocation(lines, remaining)[i] < lines[i].quantity
    ensures Allocation(lines, remaining)[j] == 0
  {
    var a := Allocation(lines, remaining);
    if remaining <= 0 {
      ZeroAllocation(lines, remaining, j);
    } else {
      var free := Min(lines[0].quantity, remaining);
      assert a == [free] + Allocation(lines[1..], remaining - free);
      if i == 0 {
        assert remaining - free == 0;
        ZeroAllocation(lines[1..], 0, j - 1);
      } else {
        AllocationGreedy(lines[1..], remaining - free, i - 1, j - 1);
      }
    }
  }

  lemma {:induction false} ZeroAllocation(lines: seq<CartItem>, remaining: int, j: int)
    requires remaining <= 0 && 0 <= j < |lines|
    ensures Allocation(lines, remaining)[j] == 0
  {
    if j > 0 {
      ZeroAllocation(lines[1..], remaining, j - 1);
    }
  }

  /** For non-negative lines the greedy sum lies between 0 and the total of
      the lines. */
  lemma {:induction false} GreedyValueBounds(lines: seq<CartItem>, remaining: int)
    requires NonNegativeLines(lines)
    ensures 0.0 <= GreedyValue(lines, remaining) <= CartTotal(lines)
  {
    CartTotalNonNegative(lines);
    if lines != [] && remaining > 0 {
      var free := Min(lines[0].quantity, remaining);
      var rest := lines[1..];
      assert NonNegativeLines(rest) by {
        forall i | 0 <= i < |rest| ensures rest[i].quantity >= 0 && rest[i].price >= 0.0 {
          assert rest[i] == lines[i + 1];
        }
      }
      GreedyValueBounds(rest, remaining - free);
      assert GreedyValue(lines, remaining) == Worth(lines[0], free) + GreedyValue(rest, remaining - free);
      CartTotalCons(lines);
      StepWithinTotal(lines[0].price, free as real, lines[0].quantity as real,
                      GreedyValue(rest, remaining - free), CartTotal(rest));
    }
  }

  /** No line costs more than `top`. */
  predicate PricesAtMost(lines: seq<CartItem>, top: real) {
    forall i :: 0 <= i < |lines| ==> lines[i].price <= top
  }

  /** `remaining` units are worth at most `remaining` times the top price. */
  lemma {:induction false} GreedyValueAtMostRate(lines: seq<CartItem>, remaining: int, top: real)
    requires NonNegativeLines(lines) && PricesAtMost(lines, top) && remaining >= 0 && top >= 0.0
    ensures GreedyValue(lines, remaining) <= remaining as real * top
  {
    MulNonNegative(remaining as real, top);
    if lines != [] && remaining > 0 {
      var free := Min(lines[0].quantity, remaining);
      var rest := lines[1..];
      assert NonNegativeLines(rest) && PricesAtMost(rest, top) by {
        forall i | 0 <= i < |rest| ensures rest[i].quantity >= 0 && rest[i].price >= 0.0 && rest[i].price <= top {
          assert rest[i] == lines[i + 1];
        }
      }
      GreedyValueAtMostRate(rest, remaining - free, top);
      StepWithinRate(lines[0].price, top, free as real, remaining as real, GreedyValue(rest, remaining - free));
    }
  }

  /** `d` more units add at most `d` times the top price to the greedy sum. */
  lemma {:induction false} GreedyValueIncrement(lines: seq<CartItem>, budget: int, d: int, top: real)
    requires NonNegativeLines(lines) && PricesAtMost(lines, top) && top >= 0.0
    requires budget >= 0 && d >= 0
    ensures GreedyValue(lines, budget + d) <= GreedyValue(lines, budget) + d as real * top
  {
    MulNonNegative(d as real, top);
    if lines == [] || budget + d <= 0 {
    } else if budget == 0 {
      GreedyValueAtMostRate(lines, d, top);
    } else if lines[0].quantity <= budget {
      var q := lines[0].quantity;
      var rest := lines[1..];
      assert NonNegativeLines(rest) && PricesAtMost(rest, top) by {
        forall i | 0 <= i < |rest| ensures rest[i].quantity >= 0 && rest[i].price >= 0.0 && rest[i].price <= top {
          assert rest[i] == lines[i + 1];
        }
      }
      GreedyValueIncrement(rest, budget - q, d, top);
      assert budget + d - q == budget - q + d;
    } else {
      IncrementWithinFirstLine(lines, budget, d, top);
    }
  }

  /** The case of `GreedyValueIncrement` where `budget` stops inside the
      first line. */
  lemma IncrementWithinFirstLine(lines: seq<CartItem>, budget: int, d: int, top: real)
    requires NonNegativeLines(lines) && PricesAtMost(lines, top) && top >= 0.0
    requires lines != [] && 0 < budget < lines[0].quantity && d >= 0
    ensures GreedyValue(lines, budget + d) <= GreedyValue(lines, budget) + d as real * top
  {
    var p := lines[0].price;
    var free := Min(lines[0].quantity, budget + d);
    var rest := lines[1..];
    assert NonNegativeLines(rest) && PricesAtMost(rest, top) by {
      forall i | 0 <= i < |rest| ensures rest[i].quantity >= 0 && rest[i].price >= 0.0 && rest[i].price <= top {
        assert rest[i] == lines[i + 1];
      }
    }
    GreedyValueAtMostRate(rest, budget + d - free, top);
    StepIncrement(p, top, budget as real, free as real, (budget + d - free) as real,
                  GreedyValue(rest, budget + d - free));
    assert GreedyValue(lines, budget) == p * budget as real + GreedyValue(rest, 0);
  }

  /** The allocation `a` frees at most each line's quantity and at most
      `remaining` units in all. */
  predicate Feasible(lines: seq<CartItem>, a: seq<int>, remaining: int) {
    && |a| == |lines|
    && (forall i :: 0 <= i < |a| ==> 0 <= a[i] <= lines[i].quantity)
    && SumUnits(a) <= remaining
  }

  lemma {:induction false} SumUnitsNonNegative(a: seq<int>)
    requires forall i :: 0 <= i < |a| ==> a[i] >= 0
    ensures SumUnits(a) >= 0
  {
    if a != [] {
      SumUnitsNonNegative(a[1..]);
    }
  }

  /** Dropping the first of sorted, non-negative lines keeps them sorted and
      non-negative, and none of the rest costs more than the first. */
  lemma SortedTail(lines: seq<CartItem>)
    requires lines != [] && SortedByPriceDesc(lines) && NonNegativeLines(lines)
    ensures SortedByPriceDesc(lines[1..]) && NonNegativeLines(lines[1..])
    ensures PricesAtMost(lines[1..], lines[0].price)
  {
    var rest := lines[1..];
    forall i, j | 0 <= i < j < |rest| ensures rest[i].price >= rest[j].price {
      assert rest[i] == lines[i + 1] && rest[j] == lines[j + 1];
    }
    forall i | 0 <= i < |rest|
      ensures rest[i].quantity >= 0 && 0.0 <= rest[i].price <= lines[0].price
    {
      assert rest[i] == lines[i + 1];
    }
  }

  /** Highest price first is best for the customer: on lines sorted by
      descending price, no feasible way of freeing the allowed units is worth
      more than the greedy one. */
  lemma {:induction false} GreedyIsOptimal(lines: seq<CartItem>, a: seq<int>, remaining: int)
    requires SortedByPriceDesc(lines) && NonNegativeLines(lines)
    requires Feasible(lines, a, remaining)
    ensures ValueOf(lines, a) <= GreedyValue(lines, remaining)
  {
    if lines != [] {
      var rest, a' := lines[1..], a[1..];
      var p := lines[0].price;
      SumUnitsNonNegative(a');
      assert SumUnits(a) == a[0] + SumUnits(a');
      SortedTail(lines);
      assert Feasible(rest, a', remaining - a[0]) by {
        forall i | 0 <= i < |a'| ensures 0 <= a'[i] <= rest[i].quantity {
          assert a'[i] == a[i + 1] && rest[i] == lines[i + 1];
        }
      }
      GreedyIsOptimal(rest, a', remaining - a[0]);
      if remaining > 0 {
        FirstUnitsWithin(lines, a, remaining);
        OptimalStep(lines, a, remaining);
      }
    }
  }

  /** A feasible allocation frees on the first line no more than the greedy
      loop does. */
  lemma FirstUnitsWithin(lines: seq<CartItem>, a: seq<int>, remaining: int)
    requires lines != [] && Feasible(lines, a, remaining)
    ensures 0 <= a[0] <= Min(lines[0].quantity, remaining)
  {
    var a' := a[1..];
    forall i | 0 <= i < |a'| ensures a'[i] >= 0 {
      assert a'[i] == a[i + 1];
    }
    SumUnitsNonNegative(a');
    assert SumUnits(a) == a[0] + SumUnits(a');
  }

  /** The step of `GreedyIsOptimal` where units remain: freeing `a[0]`
      units of the first line and the rest elsewhere is worth no more than
      freeing as many of the first line as the greedy loop does. */
  lemma OptimalStep(lines: seq<CartItem>, a: seq<int>, remaining: int)
    requires lines != [] && |a| == |lines| && remaining > 0 && lines[0].price >= 0.0
    requires 0 <= a[0] <= Min(lines[0].quantity, remaining)
    requires NonNegativeLines(lines[1..]) && PricesAtMost(lines[1..], lines[0].price)
    requires ValueOf(lines[1..], a[1..]) <= GreedyValue(lines[1..], remaining - a[0])
    ensures ValueOf(lines, a) <= GreedyValue(lines, remaining)
  {
    var rest, p := lines[1..], lines[0].price;
    var g := Min(lines[0].quantity, remaining);
    assert ValueOf(lines, a) == Worth(lines[0], a[0]) + ValueOf(rest, a[1..]);
    assert GreedyValue(lines, remaining) == Worth(lines[0], g) + GreedyValue(rest, remaining - g);
    var lo, d := remaining - g, g - a[0];
    assert lo + d == remaining - a[0];
    GreedyValueIncrement(rest, lo, d, p);
    ExchangeStep(p, a[0], g, d, Worth(lines[0], a[0]), Worth(lines[0], g),
                 ValueOf(rest, a[1..]), GreedyValue(rest, lo + d), GreedyValue(rest, lo));
  }

  // ---------------------------------------------------------------------
  // The discount

  /** What `calculateDiscount` returns: the greedy sum over the get-eligible
      lines sorted by descending price, rounded to cents; 0 when the payload
      could not be read, names no buy list, has no usable buy count, or
      grants no free unit. */
  function Discount(cart: Cart, payload: Option<BxGyPayload>): (r: real)
    ensures IsCents(r)
  {
    if payload.None? then 0.0
    else
      var p := payload.value;
      if p.buyProductIds.None? || p.buyRequiredCount.None? || p.buyRequiredCount.value == 0 then 0.0
      else
        var free := FreeAllowed(BuyQty(cart, p.buyProductIds), p.buyRequiredCount.value, p);
        if free <= 0 then 0.0
        else Round2(GreedyValue(SortByPriceDesc(GetEligible(cart, p.getProductIds)), free))
  }

  /** `calculateDiscount`: counts the buy units, works out the free units,
      sorts the get-eligible lines by descending price and frees units
      greedily; any exception on the way yields 0. */
  method CalculateDiscount(cart: Cart, payload: Option<BxGyPayload>) returns (discount: real)
    ensures discount == Discount(cart, payload)
  {
    if payload.None? {
      return 0.0;
    }
    var p := payload.value;
    if p.buyProductIds.None? && |cart| > 0 {
      // the stream filter dereferences the missing buy list
      return 0.0;
    }
    var totalBuyQty := BuyQty(cart, p.buyProductIds);
    if p.buyRequiredCount.None? || p.buyRequiredCount.value == 0 {
      // unboxing a missing count, or dividing by zero
      return 0.0;
    }
    var timesApplicable := JavaDiv(totalBuyQty, p.buyRequiredCount.value);
    if timesApplicable <= 0 {
      return 0.0;
    }
    if p.repetitionLimit.Some? && p.repetitionLimit.value > 0 {
      timesApplicable := Min(timesApplicable, p.repetitionLimit.value);
    }
    var totalFreeAllowed := timesApplicable * p.getQuantity.GetOr(0);
    assert totalFreeAllowed == FreeAllowed(totalBuyQty, p.buyRequiredCount.value, p);
    if totalFreeAllowed <= 0 {
      return 0.0;
    }
    var getEligible := SortByPriceDesc(GetEligible(cart, p.getProductIds));
    var remaining := totalFreeAllowed;
    var totalDiscount := 0.0;
    var i := 0;
    while i < |getEligible|
      invariant 0 <= i <= |getEligible|
      invariant totalDiscount + GreedyValue(getEligible[i..], remaining) == GreedyValue(getEligible, totalFreeAllowed)
    {
      if remaining <= 0 {
        break;
      }
      var it := getEligible[i];
      assert getEligible[i..][1..] == getEligible[i + 1..];
      var freeQty := Min(it.quantity, remaining);
      totalDiscount := totalDiscount + Worth(it, freeQty);
      remaining := remaining - freeQty;
      i := i + 1;
    }
    assert totalDiscount == GreedyValue(getEligible, totalFreeAllowed);
    discount := Round2(totalDiscount);
  }

  /** For non-negative lines the discount lies between 0 and the total of
      the get-eligible lines, rounded to cents. */
  lemma DiscountBounds(cart: Cart, p: BxGyPayload)
    requires NonNegativeLines(cart)
    ensures 0.0 <= Discount(cart, Some(p)) <= Round2(CartTotal(GetEligible(cart, p.getProductIds)))
  {
    var eligible := GetEligible(cart, p.getProductIds);
    var sorted := SortByPriceDesc(eligible);
    SortKeepsLines(eligible);
    SortTotal(eligible);
    assert NonNegativeLines(sorted) by {
      forall i | 0 <= i < |sorted| ensures sorted[i].quantity >= 0 && sorted[i].price >= 0.0 {
        assert sorted[i] in eligible;
      }
    }
    assert NonNegativeLines(eligible) by {
      forall i | 0 <= i < |eligible| ensures eligible[i].quantity >= 0 && eligible[i].price >= 0.0 {
        assert eligible[i] in cart;
      }
    }
    CartTotalNonNegative(eligible);
    if p.buyProductIds.Some? && p.buyRequiredCount.Some? && p.buyRequiredCount.value != 0 {
      var free := FreeAllowed(BuyQty(cart, p.buyProductIds), p.buyRequiredCount.value, p);
      GreedyValueBounds(sorted, free);
      Round2Monotone(GreedyValue(sorted, free), CartTotal(eligible));
    }
    Round2Monotone(0.0, CartTotal(eligible));
  }

  /** Six units at 10.00, buy 2 get 1 of the same product, at most twice:
      two units free, 20.00. */
  lemma BuyTwoGetOneTwice()
    ensures var cart := [CartItem(1, 6, 10.0)];
            var p := Some(BxGyPayload(Some([1]), Some(2), Some([1]), Some(1), Some(2)));
            IsApplicable(cart, p) && Discount(cart, p) == 20.0
  {
    var cart := [CartItem(1, 6, 10.0)];
    assert cart[..0] == [];
    assert BuyQty(cart, Some([1])) == 6;
    assert GetEligible(cart, Some([1])) == cart;
    assert SortByPriceDesc(cart) == cart;
    assert GreedyValue(cart, 2) == 20.0;
    Round2Idempotent(20.0);
  }
}
