/**
 * Transaction charges and the largest affordable buy quantity
 * (buffet/utils.py; the simulator carries an identical copy of the charges).
 * Decimal arithmetic is modelled as exact arithmetic on reals.
 */
module Fees {
  import opened Common

  /** Brokerage: 0.1% of the trade value, never below 5 and never above 20. */
  function Brokerage(tradeValue: real): (r: real)
    ensures 5.0 <= r <= 20.0
    ensures 5.0 <= 0.001 * tradeValue <= 20.0 ==> r == 0.001 * tradeValue
    ensures 0.001 * tradeValue < 5.0 ==> r == 5.0
    ensures 20.0 < 0.001 * tradeValue ==> r == 20.0
  {
    Max(5.0, Min(20.0, 0.001 * tradeValue))
  }

  /**
   * Total charges on a trade of value `tradeValue`: brokerage, securities transaction
   * tax (0.1%), turnover charge (0.0001%) and, on a buy only, stamp duty (0.1%).
   */
  function Charges(tradeValue: real, isBuy: bool): (r: real)
    ensures tradeValue >= 0.0 ==> r >= 5.0
    ensures r == Brokerage(tradeValue) + (if isBuy then 0.002001 else 0.001001) * tradeValue
  {
    var stt := 0.001 * tradeValue;
    var turnover := 0.000001 * tradeValue;
    var stampDuty := if isBuy then 0.001 * tradeValue else 0.0;
    Brokerage(tradeValue) + stt + turnover + stampDuty
  }

  /** Buying costs exactly the stamp duty more than selling the same value. */
  lemma BuyChargesExceedSellCharges(tradeValue: real)
    ensures Charges(tradeValue, true) - Charges(tradeValue, false) == 0.001 * tradeValue
    ensures tradeValue >= 0.0 ==> Charges(tradeValue, true) >= Charges(tradeValue, false)
  {
  }

  /** Charges never decrease as the trade value grows, on either side. */
  lemma ChargesMonotone(v1: real, v2: real, isBuy: bool)
    requires v1 <= v2
    ensures Charges(v1, isBuy) <= Charges(v2, isBuy)
  {
    assert Brokerage(v1) <= Brokerage(v2);
  }

  /** What a buy of `qty` shares at `price` takes out of the wallet. */
  function TradeCost(qty: int, price: real): real
  {
    qty as real * price + Charges(qty as real * price, true)
  }

  /** The spendable budget: the cash, capped by the per-stock limit when there is one. */
  function Budget(cash: real, investCap: Option<real>): (b: real)
    ensures b <= cash
    ensures investCap.Some? ==> b <= investCap.value
    ensures b == cash || (investCap.Some? && b == investCap.value)
  {
    if investCap.None? then cash else Min(cash, investCap.value)
  }

  /**
   * `qty` is the largest affordable quantity: a positive quantity fits the budget together
   * with its fees, and every larger quantity does not.
   */
  ghost predicate IsMaxAffordable(qty: nat, price: real, budget: real)
  {
    && (qty > 0 ==> TradeCost(qty, price) <= budget)
    && forall k: int :: qty < k ==> budget < TradeCost(k, price)
  }

  /** Two quantities that are both maximal are the same: the characterisation is exact. */
  lemma MaxAffordableUnique(q1: nat, q2: nat, price: real, budget: real)
    requires IsMaxAffordable(q1, price, budget) && IsMaxAffordable(q2, price, budget)
    ensures q1 == q2
  {
  }

  /** Beyond floor(budget / price) shares the trade value alone exceeds the budget. */
  lemma BeyondFloorUnaffordable(k: int, price: real, budget: real)
    requires price > 0.0 && k >= 1 && k > (budget / price).Floor
    ensures budget < TradeCost(k, price)
  {
    var kr := k as real;
    var q := budget / price;
    assert kr > q;
    MulStrictlyMonotone(kr, q, price);
    assert q * price == budget;
    MulStrictlyMonotone(kr, 0.0, price);
    assert TradeCost(k, price) == kr * price + Charges(kr * price, true);
  }

  lemma MulStrictlyMonotone(a: real, b: real, c: real)
    requires a > b && c > 0.0
    ensures a * c > b * c
  {
    assert a * c - b * c == (a - b) * c;
  }

  /**
   * max_affordable_buy_qty: a downward search from floor(budget / price) for the first
   * quantity whose cost and buy-side fees fit the budget.
   */
  method MaxAffordableBuyQty(availableCash: real, price: real, investCap: Option<real>) returns (qty: nat)
    ensures price <= 0.0 || Budget(availableCash, investCap) <= 0.0 ==> qty == 0
    ensures price > 0.0 ==> IsMaxAffordable(qty, price, Budget(availableCash, investCap))
    ensures price > 0.0 ==> qty as real <= Max(0.0, Budget(availableCash, investCap) / price)
  {
    var budget := Budget(availableCash, investCap);
    if price <= 0.0 || budget <= 0.0 {
      if price > 0.0 {
        forall k: int | 0 < k
          ensures budget < TradeCost(k, price)
        {
          BeyondFloorUnaffordable(k, price, budget);
        }
      }
      return 0;
    }
    var top := (budget / price).Floor;
    var q := top;
    while q > 0
      invariant q <= top
      invariant forall k: int :: q < k <= top ==> budget < TradeCost(k, price)
      decreases q
    {
      if TradeCost(q, price) <= budget {
        forall k: int | q < k
          ensures budget < TradeCost(k, price)
        {
          if k > top {
            BeyondFloorUnaffordable(k, price, budget);
          }
        }
        return q;
      }
      q := q - 1;
    }
    forall k: int | 0 < k
      ensures budget < TradeCost(k, price)
    {
      if k > top {
        BeyondFloorUnaffordable(k, price, budget);
      }
    }
    return 0;
  }
}
