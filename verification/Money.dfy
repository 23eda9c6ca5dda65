/**
 Integer micro-unit arithmetic: a price is quoted per thousand units, a cost is rounded half up
 to a whole micro-unit, and a cent is ten thousand micro-units.

 The main results bound how far costs rounded one event at a time drift from the cost of the
 summed quantity, show the bound is attained, and say for which prices there is no drift at all.
 */
module Money {

  const MICROUNITS_PER_CENT := 10_000

  /** `cost` is `product`/1000 rounded to the nearest integer, a tie going up. */
  predicate NearestHalfUp(cost: int, product: int) {
    -1000 < 2 * (1000 * cost - product) <= 1000
  }

  /** Cost in micro-units of `quantity` units; a quantity or price that is not positive costs nothing. */
  function CalculateCostMicrounits(quantity: int, pricePerThousand: int): (cost: nat)
    ensures quantity <= 0 || pricePerThousand <= 0 ==> cost == 0
    ensures quantity > 0 && pricePerThousand > 0 ==> NearestHalfUp(cost, quantity * pricePerThousand)
  {
    if quantity <= 0 || pricePerThousand <= 0 then
      0
    else
      var product := quantity * pricePerThousand;
      var whole := product / 1000;
      if 2 * (product % 1000) >= 1000 then whole + 1 else whole
  }

  function MicrounitsToCents(microunits: int): int {
    microunits / MICROUNITS_PER_CENT
  }

  /** Rounding to nearest, ties up, has exactly one answer, so the contract of the cost pins it down. */
  lemma NearestHalfUpIsUnique(c: int, d: int, product: int)
    requires NearestHalfUp(c, product) && NearestHalfUp(d, product)
    ensures c == d
  {
  }

  function Sum(qs: seq<nat>): nat {
    if qs == [] then 0 else Sum(qs[..|qs| - 1]) + qs[|qs| - 1]
  }

  /** What the ledger adds up: every event rounded by itself. */
  function SumOfCosts(qs: seq<nat>, price: int): nat {
    if qs == [] then 0 else SumOfCosts(qs[..|qs| - 1], price) + CalculateCostMicrounits(qs[|qs| - 1], price)
  }

  /** Rounded-per-event total minus the cost of the summed quantity. */
  function Drift(qs: seq<nat>, price: int): int {
    SumOfCosts(qs, price) - CalculateCostMicrounits(Sum(qs), price)
  }

  /** A thousand times the rounding error of one cost. */
  function Error(q: nat, price: int): int {
    1000 * CalculateCostMicrounits(q, price) - q * price
  }

  function SumOfErrors(qs: seq<nat>, price: int): int {
    if qs == [] then 0 else SumOfErrors(qs[..|qs| - 1], price) + Error(qs[|qs| - 1], price)
  }

  lemma Distribute(a: int, b: int, c: int)
    ensures (a + b) * c == a * c + b * c
  {
  }

  lemma {:induction false} SumOfErrorsIsDistance(qs: seq<nat>, price: int)
    ensures SumOfErrors(qs, price) == 1000 * SumOfCosts(qs, price) - Sum(qs) * price
  {
    if qs != [] {
      var init, q := qs[..|qs| - 1], qs[|qs| - 1];
      SumOfErrorsIsDistance(init, price);
      Distribute(Sum(init), q, price);
    }
  }

  lemma {:induction false} SumOfErrorsIsBounded(qs: seq<nat>, price: nat)
    ensures -499 * |qs| <= SumOfErrors(qs, price) <= 500 * |qs|
  {
    if qs != [] {
      SumOfErrorsIsBounded(qs[..|qs| - 1], price);
      ErrorOfOne(qs[|qs| - 1], price);
    }
  }

  lemma ErrorOfOne(q: nat, price: nat)
    ensures -499 <= Error(q, price) <= 500
  {
    if q == 0 || price == 0 {
      assert q * price == 0;
    }
  }

  /** Twice the drift of a list of events never exceeds the number of events, in either direction. */
  lemma RoundingDrift(qs: seq<nat>, price: int)
    ensures -|qs| <= 2 * Drift(qs, price) <= |qs|
  {
    if price <= 0 {
      FreeOfCharge(qs, price);
    } else if qs != [] {
      SumOfErrorsIsDistance(qs, price);
      SumOfErrorsIsBounded(qs, price);
      ErrorOfOne(Sum(qs), price);
    }
  }

  lemma {:induction false} FreeOfCharge(qs: seq<nat>, price: int)
    requires price <= 0
    ensures SumOfCosts(qs, price) == 0
  {
    if qs != [] {
      FreeOfCharge(qs[..|qs| - 1], price);
    }
  }

  function Copies(n: nat, q: nat): (qs: seq<nat>)
    ensures |qs| == n
  {
    seq(n, _ => q)
  }

  lemma {:induction false} SumOfCopies(n: nat, q: nat, price: int)
    ensures Sum(Copies(n, q)) == n * q
    ensures SumOfCosts(Copies(n, q), price) == n * CalculateCostMicrounits(q, price)
  {
    if n > 0 {
      SumOfCopies(n - 1, q, price);
      assert Copies(n, q)[..n - 1] == Copies(n - 1, q);
      Distribute(n - 1, 1, q);
      Distribute(n - 1, 1, CalculateCostMicrounits(q, price));
    }
  }

  /** The bound of RoundingDrift is attained for every even number of events. */
  lemma RoundingDriftIsTight(half: nat) returns (qs: seq<nat>)
    ensures |qs| == 2 * half && 2 * Drift(qs, 100) == |qs|
  {
    qs := Copies(2 * half, 5);
    SumOfCopies(2 * half, 5, 100);
    if half > 0 {
      assert NearestHalfUp(half, Sum(qs) * 100);
      NearestHalfUpIsUnique(half, CalculateCostMicrounits(Sum(qs), 100), Sum(qs) * 100);
    }
  }

  /** The ledger total and the recomputed cost agree for every list of events exactly when the price is a whole
      number of micro-units per unit (or there is no price). */
  lemma DriftFreeExactlyAtWholePrices(price: int)
    ensures (forall qs: seq<nat> :: Drift(qs, price) == 0) <==> price <= 0 || price % 1000 == 0
  {
    if price <= 0 {
      forall qs: seq<nat> ensures Drift(qs, price) == 0 {
        FreeOfCharge(qs, price);
      }
    } else if price % 1000 == 0 {
      forall qs: seq<nat> ensures Drift(qs, price) == 0 {
        WholePriceIsExact(qs, price / 1000);
        WholePriceIsExactForOne(Sum(qs), price / 1000);
      }
    } else {
      ThousandUnitsDrift(price);
    }
  }

  /** At any price, a thousand units at once cost the price itself. */
  lemma CostOfThousand(price: int)
    ensures CalculateCostMicrounits(1000, price) == Effective(price)
  {
    if price > 0 {
      assert NearestHalfUp(price, 1000 * price);
      NearestHalfUpIsUnique(price, CalculateCostMicrounits(1000, price), 1000 * price);
    }
  }

  /** A thousand single units drift at every price that rounds. */
  lemma ThousandUnitsDrift(price: int)
    requires Rounds(price)
    ensures Drift(Copies(1000, 1), price) != 0
  {
    SumOfCopies(1000, 1, price);
    CostOfThousand(price);
    assert Drift(Copies(1000, 1), price) == 1000 * CalculateCostMicrounits(1, price) - price;
  }

  /** Costs at this price are rounded at all. */
  predicate Rounds(price: int) {
    price > 0 && price % 1000 != 0
  }

  /** A price that is not positive is no price. */
  function Effective(price: int): nat {
    if price > 0 then price else 0
  }

  lemma SameEffectivePrice(qs: seq<nat>, p: int, q: int)
    requires Effective(p) == Effective(q)
    ensures SumOfCosts(qs, p) == SumOfCosts(qs, q)
  {
    if p != q {
      FreeOfCharge(qs, p);
      FreeOfCharge(qs, q);
    }
  }

  /** RoundingDrift, counting only what is rounded. */
  lemma DriftOfRounded(qs: seq<nat>, price: int)
    ensures var rounded := if Rounds(price) then |qs| else 0; -rounded <= 2 * Drift(qs, price) <= rounded
  {
    RoundingDrift(qs, price);
    DriftFreeExactlyAtWholePrices(price);
  }

  lemma WholePriceIsExactForOne(q: nat, unitPrice: nat)
    ensures CalculateCostMicrounits(q, 1000 * unitPrice) == q * unitPrice
  {
    if q > 0 && unitPrice > 0 {
      assert q * (1000 * unitPrice) == 1000 * (q * unitPrice);
      NearestHalfUpIsUnique(q * unitPrice, CalculateCostMicrounits(q, 1000 * unitPrice), q * (1000 * unitPrice));
    } else {
      assert q * unitPrice == 0;
    }
  }

  lemma {:induction false} WholePriceIsExact(qs: seq<nat>, unitPrice: nat)
    ensures SumOfCosts(qs, 1000 * unitPrice) == Sum(qs) * unitPrice
  {
    if qs != [] {
      var init, q := qs[..|qs| - 1], qs[|qs| - 1];
      WholePriceIsExact(init, unitPrice);
      WholePriceIsExactForOne(q, unitPrice);
      Distribute(Sum(init), q, unitPrice);
    }
  }

  /** Whole cents of a total split in two parts and a remainder `d`: flooring each part by itself loses at most
      two cents against flooring the total. */
  lemma CentsOfParts(total: int, a: int, b: int)
    ensures var d := total - (a + b);
            MicrounitsToCents(d)
              <= MicrounitsToCents(total) - (MicrounitsToCents(a) + MicrounitsToCents(b))
              <= MicrounitsToCents(d) + 2
  {
  }

  lemma CentsOfThree(a: nat, b: nat, c: nat)
    ensures 0 <= MicrounitsToCents(a + b + c)
              - (MicrounitsToCents(a) + MicrounitsToCents(b) + MicrounitsToCents(c)) <= 2
  {
  }
}
