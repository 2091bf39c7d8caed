/** Buying once and holding, simulated on its own: what every strategy is compared with. */
module Benchmarks {
  import opened Outcomes
  import opened Numbers
  import opened Bars
  import opened Broker
  import opened Sizing
  import opened Actions
  import opened Books

  datatype Bench = Bench(cash: int, qty: int, last: real, dividends: int, fees: int, curve: seq<int>, bought: bool)

  function Bankroll(capital: int): Bench {
    Bench(capital, 0, 0.0, 0, 0, [], false)
  }

  function AffordableQty(capital: int, price: real, c: Costing, lot: int): int
    requires lot > 0
  {
    Max(Trimmed(Lots(Affordable(c, capital, price), lot), lot, price, c, capital), 0)
  }

  function LotOf(job: Job): (lot: int)
    ensures lot > 0
  {
    Max(job.desk.symbol.lotSize, 1)
  }

  ghost function Rested(job: Job, b: Bench, i: nat): Bench
    requires i < |job.candles|
  {
    if b.qty <= 0 then b
    else
      var perShare, factor := DividendAt(job.candles, i), FactorAt(job.candles, i);
      var paid := if perShare > 0.0 then Round(b.qty as real * perShare * 100.0) else 0;
      var credited := b.(cash := b.cash + paid, dividends := b.dividends + paid);
      if factor > 0.0 then Regrouped(credited, factor, SplitPrice(job.candles[i])) else credited
  }

  function FractionCents(shares: real, price: real): int {
    Round(shares * price * 100.0)
  }

  function Regrouped(b: Bench, factor: real, price: real): Bench {
    var next := SharesAfter(b.qty, factor);
    b.(cash := b.cash + FractionCents(ExactShares(b.qty, factor) - next as real, price), qty := next)
  }

  function Bought(job: Job, b: Bench, c: Candle): Bench {
    var costing := CostingOf(job.desk);
    var entry := FillPrice(costing, ToOpen(false), c.open);
    var qty := AffordableQty(job.capital, entry, costing, LotOf(job));
    if entry > 0.0 && qty > 0 then
      var notional := Notional(qty, entry);
      b.(cash := b.cash - (notional + Fees(costing, notional)), qty := qty, fees := Fees(costing, notional), bought := true)
    else b
  }

  function Valued(b: Bench, close: real): Bench {
    b.(last := close, curve := b.curve + [b.cash + Notional(b.qty, close)])
  }

  /** One bar of holding; the purchase is at the second bar, the first any strategy can
      trade on. */
  ghost function Rode(job: Job, b: Bench, i: nat): Bench
    requires i < |job.candles|
  {
    Valued(Stocked(job, b, i), job.candles[i].close)
  }

  ghost function Stocked(job: Job, b: Bench, i: nat): Bench
    requires i < |job.candles|
  {
    var rested := Rested(job, b, i);
    if i == 1 && rested.qty == 0 then Bought(job, rested, job.candles[i]) else rested
  }

  ghost function Ride(job: Job, n: nat): Bench
    requires n <= |job.candles|
  {
    if n == 0 then Bankroll(job.capital) else Rode(job, Ride(job, n - 1), n - 1)
  }

  /** What is left once the shares are sold at the last close. */
  function Liquidated(job: Job, b: Bench): int {
    if b.qty == 0 then b.cash
    else
      var costing := CostingOf(job.desk);
      var notional := Notional(b.qty, FillPrice(costing, Order(Market, Sell, 0.0), b.last));
      b.cash + (notional - Fees(costing, notional))
  }

  /** The benchmark's curve, when there is one: the last point is after selling. */
  ghost function HoldCurve(job: Job): Option<seq<int>> {
    var n := |job.candles|;
    if n < 2 || !Ride(job, n).bought then None
    else
      var b := Ride(job, n);
      RideCounts(job, n);
      Some(b.curve[n - 1 := Liquidated(job, b)])
  }

  lemma RideCounts(job: Job, n: nat)
    requires n <= |job.candles|
    ensures |Ride(job, n).curve| == n
  {
    if n > 0 {
      RideCounts(job, n - 1);
    }
  }

  // ---------- the purchase ----------

  lemma QuantityFits(capital: int, price: real, c: Costing, lot: int)
    requires lot > 0
    ensures var qty := AffordableQty(capital, price, c, lot);
      0 <= qty && WholeLots(qty, lot) && (qty > 0 ==> qty <= Affordable(c, capital, price) && Cost(c, qty, price) <= capital)
  {
    assert 0 == 0 * lot;
    LotsBelow(Affordable(c, capital, price), lot);
    TrimmedFits(Lots(Affordable(c, capital, price), lot), lot, price, c, capital);
  }

  /** No larger number of whole lots within the budget is covered by the capital. */
  lemma QuantityIsLargest(capital: int, price: real, c: Costing, lot: int, q: int)
    requires lot > 0 && q > 0 && WholeLots(q, lot)
    requires q <= Affordable(c, capital, price) && Cost(c, q, price) <= capital
    ensures q <= AffordableQty(capital, price, c, lot)
  {
    var wish := Affordable(c, capital, price);
    LotsBelow(wish, lot);
    if q > Lots(wish, lot) {
      Sizing.MultiplesApart(Lots(wish, lot), q, lot);
      assert false;
    }
    TrimmedIsLargest(Lots(wish, lot), lot, price, c, capital, q);
  }

  /** As many whole lots as the capital covers, and no fewer. */
  method Buyable(capital: int, price: real, c: Costing, lot: int) returns (qty: int)
    requires lot > 0
    ensures qty == AffordableQty(capital, price, c, lot)
    ensures 0 <= qty && WholeLots(qty, lot)
    ensures qty > 0 ==> qty <= Affordable(c, capital, price) && Cost(c, qty, price) <= capital
    ensures forall q :: q > 0 && WholeLots(q, lot) && q <= Affordable(c, capital, price) && Cost(c, q, price) <= capital ==> q <= qty
  {
    QuantityFits(capital, price, c, lot);
    forall q | q > 0 && WholeLots(q, lot) && q <= Affordable(c, capital, price) && Cost(c, q, price) <= capital
      ensures q <= AffordableQty(capital, price, c, lot)
    {
      QuantityIsLargest(capital, price, c, lot, q);
    }
    qty := Trim(Lots(Affordable(c, capital, price), lot), lot, price, c, capital);
    qty := Max(qty, 0);
  }

  // ---------- the loop ----------

  method HoldBenchmark(job: Job) returns (curve: Option<seq<int>>)
    ensures curve == HoldCurve(job)
  {
    var n := |job.candles|;
    if n < 2 {
      return None;
    }
    var acts := ActionsOf(job.candles);
    var b := Bankroll(job.capital);
    for i := 0 to n
      invariant b == Ride(job, i)
    {
      b := Ridden(job, acts, b, i);
    }
    if !b.bought {
      return None;
    }
    RideCounts(job, n);
    return Some(b.curve[n - 1 := Liquidated(job, b)]);
  }

  method Ridden(job: Job, acts: Actions, b: Bench, i: nat) returns (r: Bench)
    requires i < |job.candles| && |acts.perShare| == |acts.factor| == |job.candles|
    requires acts.perShare[i] == DividendAt(job.candles, i) && acts.factor[i] == FactorAt(job.candles, i)
    ensures r == Rode(job, b, i)
  {
    var candle := job.candles[i];
    r := b;
    if r.qty > 0 {
      if acts.perShare[i] > 0.0 {
        var paid := Round(r.qty as real * acts.perShare[i] * 100.0);
        r := r.(cash := r.cash + paid, dividends := r.dividends + paid);
      }
      if acts.factor[i] > 0.0 {
        r := Regrouped(r, acts.factor[i], SplitPrice(candle));
      }
    }
    assert r == Rested(job, b, i);
    if i == 1 && r.qty == 0 {
      var costing := CostingOf(job.desk);
      var entry := FillPrice(costing, ToOpen(false), candle.open);
      var qty := Buyable(job.capital, entry, costing, LotOf(job));
      if entry > 0.0 && qty > 0 {
        var notional := Notional(qty, entry);
        var fees := Fees(costing, notional);
        r := r.(cash := r.cash - (notional + fees), qty := qty, fees := fees, bought := true);
      }
    }
    r := Valued(r, candle.close);
  }
}
