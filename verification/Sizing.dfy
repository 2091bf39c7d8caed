/** How many shares an entry takes. */
module Sizing {
  import opened Numbers
  import opened Specs
  import opened Broker

  function SharesFor(cents: int, price: real): int {
    if cents < 1 || price <= 0.0 then 0 else (cents as real / (price * 100.0)).Floor
  }

  function PartOf(cash: int, part: real): real {
    cash as real * part
  }

  function Stake(sizing: Sizing, cash: int): real {
    cash as real * sizing.value / 100.0
  }

  function RiskShares(stake: real, stop: real): int
    requires stop > 0.0
  {
    (stake / stop).Floor
  }

  /** What the sizing rule asks for, before cash is looked at. */
  function Requested(sizing: Sizing, cash: int, price: real, stop: real): int {
    match sizing.kind
    case FixedQty => Truncate(sizing.value)
    case PctEquity => SharesFor(Round(PartOf(cash, sizing.value)), price)
    case FixedCash => SharesFor(Truncate(sizing.value), price)
    case RiskPct => if stop <= 0.0 then 0 else RiskShares(Stake(sizing, cash), stop)
  }

  function Budget(c: Costing, cash: int): real {
    (cash - c.costs.brokerageCents) as real
  }

  /** One share in cents, its proportional fee included. */
  function UnitCents(c: Costing, price: real): real {
    price * 100.0 * (1.0 + c.costs.feeBps / 10000.0)
  }

  function Affordable(c: Costing, cash: int, price: real): int {
    var budget, unit := Budget(c, cash), UnitCents(c, price);
    if budget <= 0.0 || unit <= 0.0 then 0 else (budget / unit).Floor
  }

  function Lots(qty: int, lot: int): int
    requires lot > 0
  {
    Quotient(qty, lot) * lot
  }

  /** The correction: one lot at a time, down to what cash covers. */
  function Trimmed(qty: int, lot: int, price: real, c: Costing, cash: int): int
    requires lot > 0
    decreases qty
  {
    if qty > 0 && Cost(c, qty, price) > cash then Trimmed(qty - lot, lot, price, c, cash) else qty
  }

  function Untrimmed(sizing: Sizing, cash: int, lotSize: int, price: real, stop: real, c: Costing): int {
    Lots(Min(Requested(sizing, cash, price, stop), Affordable(c, cash, price)), Max(lotSize, 1))
  }

  function SizeOf(sizing: Sizing, cash: int, lotSize: int, price: real, stop: real, c: Costing): int {
    if price <= 0.0 then 0
    else Max(Trimmed(Untrimmed(sizing, cash, lotSize, price, stop, c), Max(lotSize, 1), price, c, cash), 0)
  }

  method Size(sizing: Sizing, cash: int, lotSize: int, price: real, stop: real, c: Costing) returns (qty: int)
    ensures qty == SizeOf(sizing, cash, lotSize, price, stop, c)
  {
    if price <= 0.0 {
      return 0;
    }
    if sizing.kind == RiskPct && stop <= 0.0 {
      NothingAsked(sizing, cash, lotSize, price, stop, c);
      return 0;
    }
    var lot := Max(lotSize, 1);
    qty := Min(Requested(sizing, cash, price, stop), Affordable(c, cash, price));
    qty := Trim(Lots(qty, lot), lot, price, c, cash);
    qty := Max(qty, 0);
  }

  method Trim(start: int, lot: int, price: real, c: Costing, cash: int) returns (qty: int)
    requires lot > 0
    ensures qty == Trimmed(start, lot, price, c, cash)
  {
    qty := start;
    while qty > 0 && Cost(c, qty, price) > cash
      invariant Trimmed(start, lot, price, c, cash) == Trimmed(qty, lot, price, c, cash)
      decreases qty
    {
      qty := qty - lot;
    }
  }

  lemma AffordableNonNegative(c: Costing, cash: int, price: real)
    ensures Affordable(c, cash, price) >= 0
  {
    var budget, unit := Budget(c, cash), UnitCents(c, price);
    if budget > 0.0 && unit > 0.0 {
      assert budget / unit >= 0.0;
    }
  }

  lemma NothingAsked(sizing: Sizing, cash: int, lotSize: int, price: real, stop: real, c: Costing)
    requires Requested(sizing, cash, price, stop) == 0
    ensures SizeOf(sizing, cash, lotSize, price, stop, c) == 0
  {
    AffordableNonNegative(c, cash, price);
  }

  ghost predicate WholeLots(qty: int, lot: int)
    requires lot > 0
  {
    exists n: int :: qty == n * lot
  }

  lemma LotsBelow(qty: int, lot: int)
    requires lot > 0
    ensures WholeLots(Lots(qty, lot), lot)
    ensures qty >= 0 ==> 0 <= Lots(qty, lot) <= qty < Lots(qty, lot) + lot
    ensures qty < 0 ==> Lots(qty, lot) <= 0
  {
    var q := Quotient(qty, lot);
    assert Lots(qty, lot) == q * lot;
    if qty >= 0 {
      Divided(qty, lot);
    } else {
      Divided(-qty, lot);
      Opposite(-qty / lot, lot);
    }
  }

  lemma Divided(qty: int, lot: int)
    requires lot > 0 && qty >= 0
    ensures 0 <= qty / lot * lot <= qty < qty / lot * lot + lot
  {
    assert qty == lot * (qty / lot) + qty % lot;
  }

  lemma Opposite(q: int, lot: int)
    requires q >= 0 && lot > 0
    ensures (-q) * lot <= 0
  {
  }

  lemma MultiplesApart(a: int, b: int, lot: int)
    requires lot > 0 && WholeLots(a, lot) && WholeLots(b, lot) && a < b
    ensures a <= b - lot
  {
    var m :| a == m * lot;
    var n :| b == n * lot;
    assert b - a == lot * (n - m);
    MultipleBound(lot, n - m);
    if n - m <= 0 {
      MultipleBound(lot, n - m);
    }
  }

  lemma {:induction false} TrimmedIsLargest(qty: int, lot: int, price: real, c: Costing, cash: int, q: int)
    requires lot > 0 && WholeLots(qty, lot) && WholeLots(q, lot)
    requires 0 < q <= qty && Cost(c, q, price) <= cash
    ensures q <= Trimmed(qty, lot, price, c, cash)
    decreases qty
  {
    if Cost(c, qty, price) > cash {
      MultiplesApart(q, qty, lot);
      OneLotLess(qty, lot);
      TrimmedIsLargest(qty - lot, lot, price, c, cash, q);
    }
  }

  lemma OneLotLess(qty: int, lot: int)
    requires lot > 0 && WholeLots(qty, lot)
    ensures WholeLots(qty - lot, lot)
  {
    var n :| qty == n * lot;
    assert qty - lot == (n - 1) * lot;
  }

  lemma {:induction false} TrimmedFits(qty: int, lot: int, price: real, c: Costing, cash: int)
    requires lot > 0 && WholeLots(qty, lot)
    ensures var r := Trimmed(qty, lot, price, c, cash);
      WholeLots(r, lot) && r <= qty && (r > 0 ==> Cost(c, r, price) <= cash)
    decreases qty
  {
    if qty > 0 && Cost(c, qty, price) > cash {
      OneLotLess(qty, lot);
      TrimmedFits(qty - lot, lot, price, c, cash);
    }
  }

  /** A size is whole lots, at most what was asked for, and covered by cash, fees and
      rounding included. */
  lemma SizeFits(sizing: Sizing, cash: int, lotSize: int, price: real, stop: real, c: Costing)
    ensures var qty, lot := SizeOf(sizing, cash, lotSize, price, stop, c), Max(lotSize, 1);
      && qty >= 0
      && WholeLots(qty, lot)
      && (qty > 0 ==> qty <= Requested(sizing, cash, price, stop))
      && (qty > 0 ==> qty <= Affordable(c, cash, price))
      && (qty > 0 ==> Cost(c, qty, price) <= cash)
  {
    var lot := Max(lotSize, 1);
    assert 0 == 0 * lot;
    if price > 0.0 {
      var wish := Min(Requested(sizing, cash, price, stop), Affordable(c, cash, price));
      LotsBelow(wish, lot);
      TrimmedFits(Lots(wish, lot), lot, price, c, cash);
    }
  }

  /** And it is the largest such: no bigger number of whole lots within the request and
      the fee-inclusive budget is covered by cash. */
  lemma SizeIsLargest(sizing: Sizing, cash: int, lotSize: int, price: real, stop: real, c: Costing, q: int)
    requires price > 0.0 && q > 0 && WholeLots(q, Max(lotSize, 1))
    requires q <= Requested(sizing, cash, price, stop) && q <= Affordable(c, cash, price)
    requires Cost(c, q, price) <= cash
    ensures q <= SizeOf(sizing, cash, lotSize, price, stop, c)
  {
    var lot := Max(lotSize, 1);
    var wish := Min(Requested(sizing, cash, price, stop), Affordable(c, cash, price));
    LotsBelow(wish, lot);
    if q > Lots(wish, lot) {
      MultiplesApart(Lots(wish, lot), q, lot);
      assert false;
    }
    TrimmedIsLargest(Lots(wish, lot), lot, price, c, cash, q);
  }

  // ---------- the rules, in money ----------

  function SpendCents(q: int, price: real): real {
    q as real * price * 100.0
  }

  /** A whole number of cents within the limit pays for it. */
  predicate CentsPay(cents: int, limit: real, spend: real) {
    cents as real <= limit && spend <= cents as real
  }

  ghost predicate Pays(limit: real, spend: real) {
    exists cents: int :: CentsPay(cents, limit, spend)
  }

  /** The most that still rounds down to a part of cash. */
  function NearestCent(cash: int, part: real): real {
    cash as real * part + 0.5
  }

  /** What each rule allows: a number of shares, a part of cash to the nearest cent, whole
      cents of a sum, or a part of cash at the stop. */
  ghost predicate Allowed(sizing: Sizing, cash: int, price: real, stop: real, q: int) {
    match sizing.kind
    case FixedQty => q as real <= sizing.value
    case PctEquity => Pays(NearestCent(cash, sizing.value), SpendCents(q, price))
    case FixedCash => Pays(sizing.value, SpendCents(q, price))
    case RiskPct => stop > 0.0 && RiskCents(q, stop) <= cash as real * sizing.value
  }

  lemma FloorIsLargest(x: real, q: int)
    ensures q <= x.Floor <==> q as real <= x
  {
  }

  lemma SharesAre(cents: int, price: real, q: int)
    requires price > 0.0 && q > 0
    ensures q <= SharesFor(cents, price) <==> SpendCents(q, price) <= cents as real
  {
    var unit := price * 100.0;
    assert SpendCents(q, price) == q as real * unit;
    TimesStrict(0.0, q as real, unit);
    QuotientTimes(cents as real, unit);
    FloorIsLargest(cents as real / unit, q);
    if q as real <= cents as real / unit {
      TimesMonotone(q as real, cents as real / unit, unit);
    } else {
      TimesStrict(cents as real / unit, q as real, unit);
    }
  }

  lemma RoundedPays(x: real, spend: real, limit: real)
    requires spend > 0.0 && limit == x + 0.5
    ensures spend <= Round(x) as real <==> Pays(limit, spend)
  {
    if spend <= Round(x) as real {
      assert CentsPay(Round(x), limit, spend);
    }
    if Pays(limit, spend) {
      var cents: int :| CentsPay(cents, limit, spend);
      FloorIsLargest(limit, cents);
    }
  }

  lemma TruncatedPays(x: real, spend: real)
    requires spend > 0.0
    ensures spend <= Truncate(x) as real <==> Pays(x, spend)
  {
    if spend <= Truncate(x) as real {
      assert CentsPay(Truncate(x), x, spend);
    }
    if Pays(x, spend) {
      var cents: int :| CentsPay(cents, x, spend);
      FloorIsLargest(x, cents);
    }
  }

  lemma RiskIs(q: int, sizing: Sizing, cash: int, stop: real)
    requires stop > 0.0
    ensures q <= RiskShares(Stake(sizing, cash), stop) <==> RiskCents(q, stop) <= cash as real * sizing.value
  {
    var stake := Stake(sizing, cash);
    QuotientTimes(stake, stop);
    FloorIsLargest(stake / stop, q);
    if q as real <= stake / stop {
      TimesMonotone(q as real, stake / stop, stop);
    } else {
      TimesStrict(stake / stop, q as real, stop);
    }
  }

  /** What is asked for is as much as the rule allows. */
  lemma RequestIs(sizing: Sizing, cash: int, price: real, stop: real, q: int)
    requires price > 0.0 && q > 0
    ensures q <= Requested(sizing, cash, price, stop) <==> Allowed(sizing, cash, price, stop, q)
  {
    PositiveSpend(q, price);
    match sizing.kind
    case FixedQty => FloorIsLargest(sizing.value, q);
    case PctEquity =>
      PartIs(PartOf(cash, sizing.value), NearestCent(cash, sizing.value), price, q);
    case FixedCash =>
      SharesAre(Truncate(sizing.value), price, q);
      TruncatedPays(sizing.value, SpendCents(q, price));
    case RiskPct =>
      if stop > 0.0 {
        RiskIs(q, sizing, cash, stop);
      }
  }

  lemma PartIs(part: real, limit: real, price: real, q: int)
    requires price > 0.0 && q > 0 && limit == part + 0.5
    ensures q <= SharesFor(Round(part), price) <==> Pays(limit, SpendCents(q, price))
  {
    PositiveSpend(q, price);
    SharesAre(Round(part), price, q);
    RoundedPays(part, SpendCents(q, price), limit);
  }

  lemma PositiveSpend(q: int, price: real)
    requires price > 0.0 && q > 0
    ensures SpendCents(q, price) > 0.0
  {
    TimesStrict(0.0, q as real, price);
  }

  /** Brokerage, price and proportional fee, none of it rounded, are within cash. */
  predicate InBudget(c: Costing, cash: int, price: real, q: int) {
    c.costs.brokerageCents as real + SpendCents(q, price) * (1.0 + c.costs.feeBps / 10000.0) <= cash as real
  }

  lemma BudgetIs(c: Costing, cash: int, price: real, q: int)
    requires price > 0.0 && q > 0 && c.costs.feeBps >= 0.0
    ensures q <= Affordable(c, cash, price) <==> InBudget(c, cash, price, q)
  {
    var unit := UnitCents(c, price);
    var rate := 1.0 + c.costs.feeBps / 10000.0;
    TimesStrict(0.0, rate, price * 100.0);
    assert unit > 0.0;
    SpreadUnit(q as real, price, c.costs.feeBps / 10000.0);
    assert q as real * unit == SpendCents(q, price) * rate;
    BudgetQuotient(Budget(c, cash), unit, q);
  }

  lemma BudgetQuotient(budget: real, unit: real, q: int)
    requires unit > 0.0 && q > 0
    ensures budget > 0.0 && q <= (budget / unit).Floor <==> q as real * unit <= budget
  {
    TimesStrict(0.0, q as real, unit);
    QuotientTimes(budget, unit);
    FloorIsLargest(budget / unit, q);
    if q as real <= budget / unit {
      TimesMonotone(q as real, budget / unit, unit);
    } else {
      TimesStrict(budget / unit, q as real, unit);
    }
  }

  /** A size in money: whole lots that the rule allows, within the budget and covered by
      cash; and no larger number of whole lots is all of that. */
  lemma SizeIsTheRules(sizing: Sizing, cash: int, lotSize: int, price: real, stop: real, c: Costing, q: int)
    requires price > 0.0 && c.costs.feeBps >= 0.0
    ensures var qty, lot := SizeOf(sizing, cash, lotSize, price, stop, c), Max(lotSize, 1);
      && (qty > 0 ==>
            && WholeLots(qty, lot) && Allowed(sizing, cash, price, stop, qty)
            && InBudget(c, cash, price, qty) && Cost(c, qty, price) <= cash)
      && (q > 0 && WholeLots(q, lot) && Allowed(sizing, cash, price, stop, q)
          && InBudget(c, cash, price, q) && Cost(c, q, price) <= cash
          ==> q <= qty)
  {
    var qty := SizeOf(sizing, cash, lotSize, price, stop, c);
    SizeFits(sizing, cash, lotSize, price, stop, c);
    if qty > 0 {
      RequestIs(sizing, cash, price, stop, qty);
      BudgetIs(c, cash, price, qty);
    }
    if q > 0 && WholeLots(q, Max(lotSize, 1)) && Cost(c, q, price) <= cash {
      RequestIs(sizing, cash, price, stop, q);
      BudgetIs(c, cash, price, q);
      if q <= Requested(sizing, cash, price, stop) && q <= Affordable(c, cash, price) {
        SizeIsLargest(sizing, cash, lotSize, price, stop, c, q);
      }
    }
  }

  lemma FloorTimes(qty: int, x: real, stop: real)
    requires stop > 0.0 && qty <= RiskShares(x, stop)
    ensures qty as real * stop <= x
  {
    TimesMonotone(qty as real, x / stop, stop);
    QuotientTimes(x, stop);
  }

  /** A position sized by risk loses at its stop, before costs, at most its share of cash. */
  lemma RiskIsBounded(sizing: Sizing, cash: int, lotSize: int, price: real, stop: real, c: Costing)
    requires sizing.kind == RiskPct && stop > 0.0
    ensures var qty := SizeOf(sizing, cash, lotSize, price, stop, c);
      qty > 0 ==> RiskCents(qty, stop) <= PartOf(cash, sizing.value)
  {
    SizeFits(sizing, cash, lotSize, price, stop, c);
    var qty := SizeOf(sizing, cash, lotSize, price, stop, c);
    if qty > 0 {
      RequestBounds(qty, sizing, cash, price, stop);
    }
  }

  /** What `qty` shares lose when the price moves by `stop`. */
  function RiskCents(qty: int, stop: real): real {
    qty as real * stop * 100.0
  }

  lemma RequestBounds(qty: int, sizing: Sizing, cash: int, price: real, stop: real)
    requires sizing.kind == RiskPct && stop > 0.0 && qty <= Requested(sizing, cash, price, stop)
    ensures RiskCents(qty, stop) <= PartOf(cash, sizing.value)
  {
    FloorTimes(qty, Stake(sizing, cash), stop);
  }

  /** What fits the fee-inclusive budget overshoots cash by at most one rounding cent. */
  lemma AffordableOvershoot(c: Costing, cash: int, price: real, qty: int)
    requires price > 0.0 && 0.0 <= c.costs.feeBps <= MAX_BPS
    requires 0 < qty <= Affordable(c, cash, price)
    ensures Unrounded(c, qty, price) <= cash as real
    ensures Cost(c, qty, price) <= cash + 1
  {
    var budget, unit := Budget(c, cash), UnitCents(c, price);
    TimesMonotone(0.0, c.costs.feeBps, price);
    assert unit == price * 100.0 + price * c.costs.feeBps / 100.0;
    assert budget > 0.0 && unit > 0.0;
    TimesMonotone(qty as real, budget / unit, unit);
    QuotientTimes(budget, unit);
    SpreadUnit(qty as real, price, c.costs.feeBps / 10000.0);
    CostIsNearlyUnrounded(c, qty, price);
  }

  lemma SpreadUnit(q: real, price: real, rate: real)
    ensures q * (price * 100.0 * (1.0 + rate)) == (q * price * 100.0) * (1.0 + rate)
  {
  }

  /** The cost with no rounding at all. */
  function Unrounded(c: Costing, qty: int, price: real): real {
    c.costs.brokerageCents as real + (qty as real * price * 100.0) * (1.0 + c.costs.feeBps / 10000.0)
  }

  lemma CostIsNearlyUnrounded(c: Costing, qty: int, price: real)
    requires price > 0.0 && 0.0 <= c.costs.feeBps <= MAX_BPS && qty >= 0
    ensures Cost(c, qty, price) as real <= Unrounded(c, qty, price) + 1.0 + 0.5 * (c.costs.feeBps / 10000.0)
  {
    var x := qty as real * price * 100.0;
    TimesMonotone(0.0, qty as real, price);
    RoundNearest(x);
    var notional, rate := Notional(qty, price), c.costs.feeBps / 10000.0;
    RoundNearest(notional as real * c.costs.feeBps / 10000.0);
    assert notional as real * c.costs.feeBps / 10000.0 == notional as real * rate;
    TimesMonotone(notional as real, x + 0.5, rate);
    assert (x + 0.5) * rate == x * rate + 0.5 * rate;
    assert x * (1.0 + rate) == x + x * rate;
  }

  lemma OneApart(x: real, y: real, k: real, xk: real, yk: real)
    requires x >= y + 1.0 && k >= 0.0
    requires xk == x * k && yk == y * k
    ensures xk >= yk + k
  {
    var next := y + 1.0;
    TimesMonotone(next, x, k);
    assert next * k == yk + k;
  }

  lemma PricesApart(q: real, less: real, price: real)
    requires q >= less + 1.0 && price >= 0.01
    ensures q * price * 100.0 >= less * price * 100.0 + 1.0
  {
    OneApart(q, less, price, q * price, less * price);
  }

  lemma FewerCostLess(qty: int, less: int, price: real, rate: real)
    requires less < qty && price >= 0.01 && rate >= 0.0
    ensures var x, y := qty as real * price * 100.0, less as real * price * 100.0;
      y * (1.0 + rate) + 1.0 + rate <= x * (1.0 + rate)
  {
    PricesApart(qty as real, less as real, price);
    var x, y, k := qty as real * price * 100.0, less as real * price * 100.0, 1.0 + rate;
    OneApart(x, y, k, x * k, y * k);
    assert x * k == x * (1.0 + rate);
    assert y * k == y * (1.0 + rate);
  }

  lemma UnroundedDrops(c: Costing, qty: int, less: int, price: real)
    requires price >= 0.01 && 0.0 <= c.costs.feeBps && less < qty
    ensures Unrounded(c, less, price) + 1.0 + c.costs.feeBps / 10000.0 <= Unrounded(c, qty, price)
  {
    FewerCostLess(qty, less, price, c.costs.feeBps / 10000.0);
  }

  lemma CentsCovered(cost: int, cash: int, less: real, most: real, rate: real)
    requires most <= cash as real && less + 1.0 + rate <= most && rate >= 0.0
    requires cost as real <= less + 1.0 + 0.5 * rate
    ensures cost <= cash
  {
  }

  lemma OneLotPays(c: Costing, cash: int, price: real, qty: int, less: int)
    requires price >= 0.01 && 0.0 <= c.costs.feeBps <= MAX_BPS
    requires 0 < qty <= Affordable(c, cash, price) && 0 <= less < qty
    ensures Cost(c, less, price) <= cash
  {
    AffordableOvershoot(c, cash, price, qty);
    CostIsNearlyUnrounded(c, less, price);
    UnroundedDrops(c, qty, less, price);
    CentsCovered(Cost(c, less, price), cash, Unrounded(c, less, price), Unrounded(c, qty, price), c.costs.feeBps / 10000.0);
  }

  /** At a centavo a share or more the correction drops at most one lot: rounding can put
      a size over cash, but never over by more than one lot costs. */
  lemma OneCorrectionIsEnough(sizing: Sizing, cash: int, lotSize: int, price: real, stop: real, c: Costing)
    requires price >= 0.01 && 0.0 <= c.costs.feeBps <= MAX_BPS
    ensures var lot, start := Max(lotSize, 1), Untrimmed(sizing, cash, lotSize, price, stop, c);
      Trimmed(start, lot, price, c, cash) in {start, start - lot}
  {
    var lot := Max(lotSize, 1);
    var wish := Min(Requested(sizing, cash, price, stop), Affordable(c, cash, price));
    LotsBelow(wish, lot);
    AffordableNonNegative(c, cash, price);
    TrimsOnce(c, cash, price, Lots(wish, lot), lot);
  }

  lemma TrimsOnce(c: Costing, cash: int, price: real, start: int, lot: int)
    requires price >= 0.01 && 0.0 <= c.costs.feeBps <= MAX_BPS
    requires lot > 0 && start <= Affordable(c, cash, price)
    ensures Trimmed(start, lot, price, c, cash) in {start, start - lot}
  {
    if start > lot {
      OneLotPays(c, cash, price, start, start - lot);
    }
  }
}
